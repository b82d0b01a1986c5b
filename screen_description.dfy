/** The window-bounds helpers of the screen-description tool: the foreground
    window's rectangle turned into clamped bounds, the bounds check, the parse of
    `xdotool getwindowgeometry` output, and the `screencapture` command line. */
module ScreenDescription {
  import opened Wrappers
  import opened Strings
  import WindowsUtils

  /** `(x, y, width, height)`. */
  datatype Bounds = Bounds(x: int, y: int, width: int, height: int)

  const InvalidDimensions := "Invalid window dimensions"
  const InvalidPosition := "Invalid window position"

  /** `_validate_bounds(bounds)`: None when nothing is raised, otherwise the message
      of the `WindowBoundsError`; the size is checked before the position. */
  function ValidateBounds(b: Bounds): (r: Option<string>)
    ensures r == Some(InvalidDimensions) <==> b.width <= 0 || b.height <= 0
    ensures r == Some(InvalidPosition) <==> b.width > 0 && b.height > 0 && (b.x < 0 || b.y < 0)
    ensures r.None? <==> b.width > 0 && b.height > 0 && b.x >= 0 && b.y >= 0
  {
    if b.width <= 0 || b.height <= 0 then Some(InvalidDimensions)
    else if b.x < 0 || b.y < 0 then Some(InvalidPosition)
    else None
  }

  /** The inner `get_window_bounds` of the Windows path, on the rectangle
      `GetWindowRect` returns: the size is taken from the rectangle as it is, then
      a negative corner coordinate is moved to 0. Such bounds never fail the
      position check, so they pass validation exactly when the rectangle has a
      positive size. */
  method WindowBounds(rect: WindowsUtils.Rect) returns (b: Bounds)
    ensures b.width == rect.right - rect.left && b.height == rect.bottom - rect.top
    ensures b.x >= 0 && b.y >= 0
    ensures rect.left >= 0 ==> b.x == rect.left
    ensures rect.top >= 0 ==> b.y == rect.top
    ensures rect.left < 0 ==> b.x == 0
    ensures rect.top < 0 ==> b.y == 0
    ensures ValidateBounds(b) != Some(InvalidPosition)
    ensures ValidateBounds(b).None? <==> rect.right > rect.left && rect.bottom > rect.top
  {
    var x := rect.left;
    var y := rect.top;
    var w := rect.right - x;
    var h := rect.bottom - y;
    if x < 0 {
      x := 0;
    }
    if y < 0 {
      y := 0;
    }
    b := Bounds(x, y, w, h);
  }

  /** `_get_screenshot_command(x, y, width, height)`. */
  function ScreenshotCommand(x: int, y: int, width: int, height: int): (r: seq<string>)
    ensures |r| == 3 && r[0] == "screencapture" && r[1] == "-R"
  {
    ["screencapture", "-R", Region(x, y, width, height)]
  }

  /** The `-R` argument: the four numbers, comma-separated. */
  function Region(x: int, y: int, width: int, height: int): string {
    IntToString(x) + "," + IntToString(y) + "," + IntToString(width) + "," + IntToString(height)
  }

  /** The region argument names the bounds it was made from: splitting it at commas
      and reading each piece as an integer gives back x, y, width and height. */
  lemma RegionReadsBack(x: int, y: int, width: int, height: int)
    ensures var pieces := Split(ScreenshotCommand(x, y, width, height)[2], ',');
            && |pieces| == 4
            && ParseInt(pieces[0]) == Some(x) && ParseInt(pieces[1]) == Some(y)
            && ParseInt(pieces[2]) == Some(width) && ParseInt(pieces[3]) == Some(height)
  {
    RegionPieces(x, y, width, height);
    ParseIntToString(x);
    ParseIntToString(y);
    ParseIntToString(width);
    ParseIntToString(height);
  }

  lemma RegionPieces(x: int, y: int, width: int, height: int)
    ensures Split(Region(x, y, width, height), ',') ==
            [IntToString(x), IntToString(y), IntToString(width), IntToString(height)]
  {
    NumberPlain(x);
    NumberPlain(y);
    NumberPlain(width);
    NumberPlain(height);
    CommaFour(IntToString(x), IntToString(y), IntToString(width), IntToString(height));
  }

  /** Four comma-free texts joined by commas split back into the four. */
  lemma CommaFour(a: string, b: string, c: string, d: string)
    requires ',' !in a && ',' !in b && ',' !in c && ',' !in d
    ensures Split(a + "," + b + "," + c + "," + d, ',') == [a, b, c, d]
  {
    Regroup4(a, b, c, d, ',');
    SplitFour(a, b, c, d, ',');
  }

  lemma Regroup4(a: string, b: string, c: string, d: string, sep: char)
    ensures a + [sep] + b + [sep] + c + [sep] + d == a + [sep] + (b + [sep] + (c + [sep] + d))
  {
    Regroup(a, b, c, sep);
    Regroup(a, b, c + [sep] + d, sep);
    assert a + [sep] + b + [sep] + c + [sep] + d == a + [sep] + b + [sep] + (c + [sep] + d);
  }

  lemma SplitFour(a: string, b: string, c: string, d: string, sep: char)
    requires sep !in a && sep !in b && sep !in c && sep !in d
    ensures Split(a + [sep] + (b + [sep] + (c + [sep] + d)), sep) == [a, b, c, d]
  {
    SplitOnce(c, d, sep);
    SplitTwice(a, b, c + [sep] + d, sep);
    PairOfPairs(a, b, c, d);
  }

  // ------------------------------------------------------------ xdotool output

  /** The index of the first line containing `key`: the `[0]` of the list
      comprehension, None where that raises IndexError. */
  function FirstWith(lines: seq<string>, key: string): (k: Option<nat>)
    ensures k.None? <==> forall i :: 0 <= i < |lines| ==> !Contains(lines[i], key)
    ensures k.Some? ==> k.value < |lines| && Contains(lines[k.value], key) &&
                        forall j :: 0 <= j < k.value ==> !Contains(lines[j], key)
    decreases |lines|
  {
    if lines == [] then None
    else if Contains(lines[0], key) then Some(0)
    else match FirstWith(lines[1..], key)
      case None => None
      case Some(j) => Some(j + 1)
  }

  /** Two integers from `fields`, the unpacking of `map(int, fields)` into two names;
      None where that raises ValueError. */
  function TwoInts(fields: seq<string>): Option<(int, int)> {
    if |fields| != 2 then None
    else match (ParseInt(fields[0]), ParseInt(fields[1]))
      case (Some(a), Some(b)) => Some((a, b))
      case _ => None
  }

  /** `position_line.split(':')[1].split('(')[0].strip().split(',')`, read as x, y. */
  function ParsePosition(line: string): Option<(int, int)> {
    var parts := Split(line, ':');
    if |parts| < 2 then None
    else TwoInts(Split(Strip(Split(parts[1], '(')[0]), ','))
  }

  /** `geometry_line.split(':')[1].strip().split('x')`, read as width, height. */
  function ParseGeometry(line: string): Option<(int, int)> {
    var parts := Split(line, ':');
    if |parts| < 2 then None
    else TwoInts(Split(Strip(parts[1]), 'x'))
  }

  /** `_get_linux_window_bounds()` given the exit status and the output of
      `xdotool`: a failed command, a missing `Position:` or `Geometry:` line, or a
      field that is not an integer gives None instead of an exception. */
  function LinuxWindowBounds(returnCode: int, output: string): (r: Option<Bounds>)
    ensures returnCode != 0 ==> r.None?
    ensures (forall i :: 0 <= i < |Split(output, '\n')| ==> !Contains(Split(output, '\n')[i], "Position:")) ==> r.None?
    ensures (forall i :: 0 <= i < |Split(output, '\n')| ==> !Contains(Split(output, '\n')[i], "Geometry:")) ==> r.None?
  {
    if returnCode != 0 then None
    else
      var lines := Split(output, '\n');
      var p := FirstWith(lines, "Position:");
      var g := FirstWith(lines, "Geometry:");
      if p.None? || g.None? then None
      else match (ParsePosition(lines[p.value]), ParseGeometry(lines[g.value]))
        case (Some(xy), Some(wh)) => Some(Bounds(xy.0, xy.1, wh.0, wh.1))
        case _ => None
  }

  /** The lines `xdotool getactivewindow getwindowgeometry` prints. */
  function HeaderLine(window: nat): string {
    "Window " + IntToString(window) + " (focused window):"
  }

  function PositionLine(x: int, y: int, screen: nat): string {
    "  Position: " + IntToString(x) + "," + IntToString(y) + " (screen: " + IntToString(screen) + ")"
  }

  function GeometryLine(width: int, height: int): string {
    "  Geometry: " + IntToString(width) + "x" + IntToString(height)
  }

  function XdotoolOutput(window: nat, b: Bounds, screen: nat): string {
    HeaderLine(window) + "\n" + PositionLine(b.x, b.y, screen) + "\n" + GeometryLine(b.width, b.height) + "\n"
  }

  /** Text the parse reads as one number: no separator, no key letter, no whitespace. */
  predicate Plain(s: string) {
    s != [] && ':' !in s && ',' !in s && '(' !in s && 'x' !in s && '\n' !in s &&
    'P' !in s && 'G' !in s && NoSpace(s)
  }

  /** The decimal text of an integer is plain, and it is that integer's numeral. */
  lemma NumberPlain(n: int)
    ensures Plain(IntToString(n)) && Numeral(IntToString(n), n)
  {
    IntToStringChars(n);
    IntToStringNumeral(n);
  }

  /** Two numerals read back as their integers. */
  lemma TwoNumerals(sa: string, a: int, sb: string, b: int)
    requires Numeral(sa, a) && Numeral(sb, b)
    ensures TwoInts([sa, sb]) == Some((a, b))
  {
    ParseNumeral(sa, a);
    ParseNumeral(sb, b);
  }

  /** The coordinates field ` <sx>,<sy> (screen` gives back `sx` and `sy`. */
  lemma FieldCoords(sx: string, sy: string)
    requires Plain(sx) && Plain(sy)
    ensures Split(Strip(Split(" " + sx + "," + sy + " (screen", '(')[0]), ',') == [sx, sy]
  {
    var coords := sx + [','] + sy;
    var padded := " " + coords + " ";
    FieldRegroup(sx, sy);
    SplitFirst(padded, "screen", '(');
    NoSpaceJoin(sx, ',', sy);
    StripPadded(coords);
    SplitOnce(sx, sy, ',');
  }

  lemma FieldRegroup(sx: string, sy: string)
    requires '(' !in sx && '(' !in sy
    ensures " " + sx + "," + sy + " (screen" == (" " + (sx + [','] + sy) + " ") + ['('] + "screen"
    ensures '(' !in " " + (sx + [','] + sy) + " "
  {
  }

  lemma PositionRegroup(sx: string, sy: string, ss: string)
    ensures "  Position: " + sx + "," + sy + " (screen: " + ss + ")" ==
            "  Position" + [':'] + ((" " + sx + "," + sy + " (screen") + [':'] + (" " + ss + ")"))
  {
    assert "  Position: " == "  Position" + [':'] + " ";
    assert " (screen: " == " (screen" + [':'] + " ";
  }

  /** The position line, whatever its numbers, parses to the two coordinates. */
  lemma PositionText(sx: string, sy: string, ss: string)
    requires Plain(sx) && Plain(sy) && ':' !in ss
    ensures ParsePosition("  Position: " + sx + "," + sy + " (screen: " + ss + ")") == TwoInts([sx, sy])
  {
    var field := " " + sx + "," + sy + " (screen";
    var trailer := " " + ss + ")";
    PositionRegroup(sx, sy, ss);
    SplitTwice("  Position", field, trailer, ':');
    FieldCoords(sx, sy);
  }

  /** The geometry line, whatever its numbers, parses to the two sizes. */
  lemma GeometryText(sw: string, sh: string)
    requires Plain(sw) && Plain(sh)
    ensures ParseGeometry("  Geometry: " + sw + "x" + sh) == TwoInts([sw, sh])
  {
    var size := sw + ['x'] + sh;
    assert "  Geometry: " + sw + "x" + sh == "  Geometry" + [':'] + (" " + size);
    SplitOnce("  Geometry", " " + size, ':');
    NoSpaceJoin(sw, 'x', sh);
    StripPadded(size);
    SplitOnce(sw, sh, 'x');
  }

  lemma ParsePositionLine(x: int, y: int, screen: nat)
    ensures ParsePosition(PositionLine(x, y, screen)) == Some((x, y))
  {
    NumberPlain(x);
    NumberPlain(y);
    NumberPlain(screen);
    PositionText(IntToString(x), IntToString(y), IntToString(screen));
    TwoNumerals(IntToString(x), x, IntToString(y), y);
  }

  lemma ParseGeometryLine(width: int, height: int)
    ensures ParseGeometry(GeometryLine(width, height)) == Some((width, height))
  {
    NumberPlain(width);
    NumberPlain(height);
    GeometryText(IntToString(width), IntToString(height));
    TwoNumerals(IntToString(width), width, IntToString(height), height);
  }

  /** Which characters each line is free of, whatever its numbers. */
  lemma HeaderChars(sw: string)
    requires Plain(sw)
    ensures var h := "Window " + sw + " (focused window):"; '\n' !in h && 'P' !in h && 'G' !in h
  {
  }

  lemma PositionChars(sx: string, sy: string, ss: string)
    requires Plain(sx) && Plain(sy) && Plain(ss)
    ensures var p := "  Position: " + sx + "," + sy + " (screen: " + ss + ")"; '\n' !in p && 'G' !in p
  {
  }

  lemma GeometryChars(sw: string, sh: string)
    requires Plain(sw) && Plain(sh)
    ensures '\n' !in "  Geometry: " + sw + "x" + sh
  {
  }

  /** Three newline-terminated lines split into the lines and an empty last piece. */
  lemma ThreeLines(a: string, b: string, c: string)
    requires '\n' !in a && '\n' !in b && '\n' !in c
    ensures Split(a + "\n" + b + "\n" + c + "\n", '\n') == [a, b, c, ""]
  {
    var n := ['\n'];
    Assoc(a + n + b + n, c, n);
    Regroup(a, b, c + n, '\n');
    SplitTwice(a, b, c + n, '\n');
    EmptyRight(c + n);
    SplitOnce(c, "", '\n');
    PairOfPairs(a, b, c, "");
  }

  /** The output's lines: the header, the position, the geometry, and the empty
      piece after the final newline. */
  lemma XdotoolLines(window: nat, b: Bounds, screen: nat)
    ensures Split(XdotoolOutput(window, b, screen), '\n') ==
            [HeaderLine(window), PositionLine(b.x, b.y, screen), GeometryLine(b.width, b.height), ""]
  {
    NumberPlain(window);
    NumberPlain(b.x);
    NumberPlain(b.y);
    NumberPlain(screen);
    NumberPlain(b.width);
    NumberPlain(b.height);
    HeaderChars(IntToString(window));
    PositionChars(IntToString(b.x), IntToString(b.y), IntToString(screen));
    GeometryChars(IntToString(b.width), IntToString(b.height));
    ThreeLines(HeaderLine(window), PositionLine(b.x, b.y, screen), GeometryLine(b.width, b.height));
  }

  /** A text holding neither `P` nor `G` holds neither key. */
  lemma NoKeys(s: string)
    ensures 'P' !in s ==> !Contains(s, "Position:")
    ensures 'G' !in s ==> !Contains(s, "Geometry:")
  {
    if Contains(s, "Position:") {
      ContainsHead(s, "Position:");
    }
    if Contains(s, "Geometry:") {
      ContainsHead(s, "Geometry:");
    }
  }

  /** A text that starts with a key's own line prefix holds the key. */
  lemma KeyAtTwo(prefix: string, key: string)
    requires |prefix| >= 2 + |key| && prefix[2..2 + |key|] == key
    ensures Contains(prefix, key)
  {
    assert OccursAt(prefix, key, 2);
    ContainsIff(prefix, key);
  }

  lemma PositionKeyIn(sx: string, sy: string, ss: string)
    ensures Contains("  Position: " + sx + "," + sy + " (screen: " + ss + ")", "Position:")
  {
    var p0 := "  Position: ";
    KeyAtTwo(p0, "Position:");
    ContainsAppend(p0, sx, "Position:");
    ContainsAppend(p0 + sx, ",", "Position:");
    ContainsAppend(p0 + sx + ",", sy, "Position:");
    ContainsAppend(p0 + sx + "," + sy, " (screen: ", "Position:");
    ContainsAppend(p0 + sx + "," + sy + " (screen: ", ss, "Position:");
    ContainsAppend(p0 + sx + "," + sy + " (screen: " + ss, ")", "Position:");
  }

  lemma GeometryKeyIn(sw: string, sh: string)
    ensures Contains("  Geometry: " + sw + "x" + sh, "Geometry:")
  {
    var g0 := "  Geometry: ";
    KeyAtTwo(g0, "Geometry:");
    ContainsAppend(g0, sw, "Geometry:");
    ContainsAppend(g0 + sw, "x", "Geometry:");
    ContainsAppend(g0 + sw + "x", sh, "Geometry:");
  }

  /** Which of the lines hold the two keys. */
  lemma XdotoolKeys(window: nat, b: Bounds, screen: nat)
    ensures !Contains(HeaderLine(window), "Position:") && !Contains(HeaderLine(window), "Geometry:")
    ensures Contains(PositionLine(b.x, b.y, screen), "Position:")
    ensures !Contains(PositionLine(b.x, b.y, screen), "Geometry:")
    ensures Contains(GeometryLine(b.width, b.height), "Geometry:")
  {
    NumberPlain(window);
    NumberPlain(b.x);
    NumberPlain(b.y);
    NumberPlain(screen);
    NumberPlain(b.width);
    HeaderChars(IntToString(window));
    PositionChars(IntToString(b.x), IntToString(b.y), IntToString(screen));
    NoKeys(HeaderLine(window));
    NoKeys(PositionLine(b.x, b.y, screen));
    PositionKeyIn(IntToString(b.x), IntToString(b.y), IntToString(screen));
    GeometryKeyIn(IntToString(b.width), IntToString(b.height));
  }

  /** Where the two keys are found among a header, a position line, a geometry line
      and an empty last piece. */
  lemma KeyLines(h: string, p: string, g: string)
    requires !Contains(h, "Position:") && !Contains(h, "Geometry:")
    requires Contains(p, "Position:") && !Contains(p, "Geometry:") && Contains(g, "Geometry:")
    ensures FirstWith([h, p, g, ""], "Position:") == Some(1)
    ensures FirstWith([h, p, g, ""], "Geometry:") == Some(2)
  {
    var lines := [h, p, g, ""];
    assert lines[1..] == [p, g, ""];
    assert FirstWith([p, g, ""], "Position:") == Some(0);
    assert [p, g, ""][1..] == [g, ""];
    assert FirstWith([g, ""], "Geometry:") == Some(0);
    assert FirstWith([p, g, ""], "Geometry:") == Some(1);
  }

  /** The parse reads back what `xdotool` prints: a header line, then the position
      and the geometry of the window. */
  lemma XdotoolRoundTrip(window: nat, b: Bounds, screen: nat)
    ensures LinuxWindowBounds(0, XdotoolOutput(window, b, screen)) == Some(b)
  {
    XdotoolLines(window, b, screen);
    XdotoolKeys(window, b, screen);
    KeyLines(HeaderLine(window), PositionLine(b.x, b.y, screen), GeometryLine(b.width, b.height));
    ParsePositionLine(b.x, b.y, screen);
    ParseGeometryLine(b.width, b.height);
  }
}
