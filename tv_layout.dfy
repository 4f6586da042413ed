/**
 * The text layout shared by the two TV renderers (the Compose canvas and
 * the web page): padding a line with spaces on the right or on both sides,
 * the width of the widest line, and the ten rows of the screen cut from a
 * piece of content.
 */
module TvLayout {
  import opened Text
  import AsciiArtSheet

  /** The screen shows 10 rows of 32 characters. */
  const TvWidth: nat := 32
  const TvHeight: nat := 10

  /** The blank braille pattern U+2800, which the screen shows as a space. */
  const BlankPattern: char := '\U{2800}'

  function Spaces(n: nat): (r: string)
    ensures |r| == n
    ensures forall i :: 0 <= i < n ==> r[i] == ' '
  {
    Repeat(' ', n)
  }

  /**
   * paddedRight: the text followed by spaces up to `count` characters, or
   * the text itself when it is already that long.
   */
  function PaddedRight(text: string, count: int): (r: string)
    ensures |r| == if count <= |text| then |text| else count
    ensures r[..|text|] == text
    ensures forall i :: |text| <= i < |r| ==> r[i] == ' '
  {
    if count <= |text| then text else text + Spaces(count - |text|)
  }

  /** The number of spaces `padded` puts before the text: the floor of half the missing width. */
  function LeftPadding(text: string, count: int): nat
  {
    if count <= |text| then 0 else (count - |text|) / 2
  }

  /**
   * padded: the text centred in `count` characters, the missing width split
   * into floor(p / 2) spaces before and ceil(p / 2) after; the text itself
   * when it is already that long. The source rounds `p / 2.0` with floor
   * and ceil, which for a whole p are the integer halves written here.
   */
  function Padded(text: string, count: int): (r: string)
    ensures |r| == if count <= |text| then |text| else count
    ensures var left := LeftPadding(text, count);
      && left + |text| <= |r|
      && r[left..left + |text|] == text
      && (forall i :: 0 <= i < left ==> r[i] == ' ')
      && (forall i :: left + |text| <= i < |r| ==> r[i] == ' ')
      && (|r| - |text| - left == left || |r| - |text| - left == left + 1)
  {
    if count <= |text| then text else
      var total := count - |text|;
      var r := Spaces(total / 2) + text + Spaces((total + 1) / 2);
      assert r[total / 2..total / 2 + |text|] == text;
      r
  }

  /** Padding adds nothing but spaces. */
  lemma PaddingAddsSpaces(text: string, count: int)
    ensures forall c :: c in PaddedRight(text, count) ==> c in text || c == ' '
    ensures forall c :: c in Padded(text, count) ==> c in text || c == ' '
  {
    RightPaddingAddsSpaces(text, count);
    CentringAddsSpaces(text, count);
  }

  lemma RightPaddingAddsSpaces(text: string, count: int)
    ensures forall c :: c in PaddedRight(text, count) ==> c in text || c == ' '
  {
    var r := PaddedRight(text, count);
    forall c | c in r
      ensures c in text || c == ' '
    {
      var i :| 0 <= i < |r| && r[i] == c;
      if i < |text| {
        assert r[..|text|][i] == c;
      }
    }
  }

  lemma CentringAddsSpaces(text: string, count: int)
    ensures forall c :: c in Padded(text, count) ==> c in text || c == ' '
  {
    var p := Padded(text, count);
    var left := LeftPadding(text, count);
    forall c | c in p
      ensures c in text || c == ' '
    {
      var i :| 0 <= i < |p| && p[i] == c;
      if left <= i < left + |text| {
        assert p[left..left + |text|][i - left] == c;
      }
    }
  }

  /** The length of the longest line, 0 for no lines. */
  function Widest(lines: seq<string>): (w: nat)
    ensures forall k :: 0 <= k < |lines| ==> |lines[k]| <= w
    ensures |lines| == 0 ==> w == 0
    ensures |lines| > 0 ==> exists k :: 0 <= k < |lines| && |lines[k]| == w
  {
    if |lines| == 0 then 0 else
      var w := Widest(lines[..|lines| - 1]);
      var last := |lines[|lines| - 1]|;
      assert forall k :: 0 <= k < |lines| - 1 ==> lines[k] == lines[..|lines| - 1][k];
      if last > w then last else w
  }

  /** The content with every blank braille pattern shown as a space. */
  function Blanked(content: string): (r: string)
    ensures |r| == |content|
    ensures forall i :: 0 <= i < |r| ==> r[i] == if content[i] == BlankPattern then ' ' else content[i]
  {
    seq(|content|, i requires 0 <= i < |content| => if content[i] == BlankPattern then ' ' else content[i])
  }

  /** The lines of the content as the screen splits it. */
  function ContentLines(content: string): (lines: seq<string>)
    ensures |lines| > 0
    ensures forall k :: 0 <= k < |lines| ==> '\n' !in lines[k]
  {
    Split(Blanked(content), '\n')
  }

  /** Every line padded on the right to the widest one, then centred in the screen width. */
  function Centered(lines: seq<string>): (r: seq<string>)
    ensures |r| == |lines|
  {
    var w := Widest(lines);
    seq(|lines|, i requires 0 <= i < |lines| => Padded(PaddedRight(lines[i], w), TvWidth))
  }

  /** The ten rows of the screen: the first ten centred lines, then blank rows of the screen width. */
  function ScreenRows(content: string): (rows: seq<string>)
  {
    var centered := Centered(ContentLines(content));
    if |centered| >= TvHeight then centered[..TvHeight]
    else centered + seq(TvHeight - |centered|, _ => Spaces(TvWidth))
  }

  /** Centred lines with blank rows pushed below until there are ten: their first ten are the screen rows. */
  lemma FilledRows(centered: seq<string>, filled: seq<string>)
    requires |centered| <= |filled| && TvHeight <= |filled|
    requires |centered| < TvHeight ==> |filled| == TvHeight
    requires filled == centered + seq(|filled| - |centered|, _ => Spaces(TvWidth))
    ensures filled[..TvHeight] == if |centered| >= TvHeight then centered[..TvHeight]
      else centered + seq(TvHeight - |centered|, _ => Spaces(TvWidth))
  {
    if |centered| >= TvHeight {
      assert filled[..TvHeight] == centered[..TvHeight];
    }
  }

  /** The width of a centred line: the widest line or the screen, whichever is wider. */
  function RowWidth(lines: seq<string>): nat
  {
    if Widest(lines) <= TvWidth then TvWidth else Widest(lines)
  }

  /** A line padded to width w and centred in the screen keeps its text at the start of the padding. */
  lemma CenteredLine(line: string, w: nat)
    requires |line| <= w
    ensures var r := Padded(PaddedRight(line, w), TvWidth);
      && |r| == (if w <= TvWidth then TvWidth else w)
      && r[LeftPadding(PaddedRight(line, w), TvWidth)..][..|line|] == line
      && ('\n' !in line ==> '\n' !in r)
  {
    var p := PaddedRight(line, w);
    var r := Padded(p, TvWidth);
    var left := LeftPadding(p, TvWidth);
    assert r[left..][..|line|] == r[left..left + |p|][..|line|];
    assert p[..|line|] == line;
    PaddingAddsSpaces(line, w);
    PaddingAddsSpaces(p, TvWidth);
  }

  /**
   * The screen has exactly ten rows. A row cut from line k of the content
   * is that line (after blank patterns become spaces) padded to the widest
   * line and centred, so it is RowWidth wide and holds the line unchanged
   * after its left padding; the rows added below short content are blank
   * and exactly the screen width. No row holds a line feed.
   */
  lemma ScreenRowsShape(content: string)
    ensures |ScreenRows(content)| == TvHeight
    ensures var lines := ContentLines(content);
      forall k :: 0 <= k < TvHeight ==>
        && '\n' !in ScreenRows(content)[k]
        && (k < |lines| ==>
              ScreenRows(content)[k] == Padded(PaddedRight(lines[k], Widest(lines)), TvWidth) &&
              |ScreenRows(content)[k]| == RowWidth(lines))
        && (k >= |lines| ==> ScreenRows(content)[k] == Spaces(TvWidth))
  {
    var lines := ContentLines(content);
    var rows := ScreenRows(content);
    var w := Widest(lines);
    forall k | 0 <= k < TvHeight
      ensures '\n' !in rows[k]
      ensures k < |lines| ==> rows[k] == Padded(PaddedRight(lines[k], w), TvWidth) && |rows[k]| == RowWidth(lines)
      ensures k >= |lines| ==> rows[k] == Spaces(TvWidth)
    {
      if k < |lines| {
        CenteredLine(lines[k], w);
      } else {
        assert forall i :: 0 <= i < TvWidth ==> Spaces(TvWidth)[i] == ' ';
      }
    }
  }

  // The picture of the TV

  /** The box-drawing lines around the screen, each 36 characters wide. */
  const Top: string := "╭" + Repeat('─', TvWidth + 2) + "╮"
  const InnerTop: string := "│╭" + Repeat('─', TvWidth) + "╮│"
  const InnerBottom: string := "│╰" + Repeat('─', TvWidth) + "╯│"
  const Bottom: string := "╰" + Repeat('─', TvWidth + 2) + "╯"

  /** The name written under the screen. */
  const Label: string := "Tama Tv"

  /** A line of the picture, a line feed, and the rest of the picture. */
  function Above(line: string, rest: string): string
  {
    line + "\n" + rest
  }

  /** Every row between the double walls of the screen. */
  function Walled(rows: seq<string>): (r: seq<string>)
    ensures |r| == |rows|
    ensures forall k :: 0 <= k < |rows| ==> r[k] == "││" + rows[k] + "││"
  {
    seq(|rows|, k requires 0 <= k < |rows| => "││" + rows[k] + "││")
  }

  /**
   * The TV: the antenna lines, the outer and inner top borders, the walled
   * rows, the inner bottom border, the label line and the outer bottom
   * border, one per line.
   */
  function TvPicture(antenna: seq<string>, rows: seq<string>, labelLine: string): string
  {
    Above(Join(antenna, "\n"),
      Above(Top,
        Above(InnerTop,
          Above(Join(Walled(rows), "\n"),
            Above(InnerBottom,
              Above(labelLine, Bottom))))))
  }

  /** The lines of the TV picture. */
  function TvLines(antenna: seq<string>, rows: seq<string>, labelLine: string): seq<string>
  {
    antenna + [Top, InnerTop] + Walled(rows) + [InnerBottom, labelLine, Bottom]
  }

  /** Lines that hold no line feed. */
  predicate NoLineFeeds(lines: seq<string>)
  {
    forall k :: 0 <= k < |lines| ==> '\n' !in lines[k]
  }

  /** The borders are 36 characters wide and hold no line feed. */
  lemma BordersAreLines()
    ensures NoLineFeeds([Top, InnerTop, InnerBottom, Bottom])
    ensures |Top| == |InnerTop| == |InnerBottom| == |Bottom| == TvWidth + 4
  {
    var outer, inner := Repeat('─', TvWidth + 2), Repeat('─', TvWidth);
    assert '\n' !in outer && '\n' !in inner;
  }

  /** Walls hold no line feed when the rows hold none, and add four characters to each row. */
  lemma WalledLines(rows: seq<string>)
    requires NoLineFeeds(rows)
    ensures NoLineFeeds(Walled(rows))
    ensures forall k :: 0 <= k < |rows| ==> |Walled(rows)[k]| == |rows[k]| + 4
  {
    forall k | 0 <= k < |rows|
      ensures '\n' !in Walled(rows)[k]
    {
      assert Walled(rows)[k] == "││" + rows[k] + "││";
    }
  }

  lemma AboveJoined(a: string, b: string, c: string)
    ensures Above(a + "\n" + b, c) == a + ['\n'] + Above(b, c)
  {
  }

  /** Joined lines above the rest of a picture split back into those lines and the rest's lines. */
  lemma {:induction false} SplitAbove(parts: seq<string>, rest: string)
    requires |parts| > 0 && NoLineFeeds(parts)
    ensures Split(Above(Join(parts, "\n"), rest), '\n') == parts + Split(rest, '\n')
    decreases |parts|
  {
    if |parts| == 1 {
      assert Above(parts[0], rest) == parts[0] + ['\n'] + rest;
      SplitAt(parts[0], rest, '\n');
    } else {
      var tail := Join(parts[1..], "\n");
      var after := Split(rest, '\n');
      assert Join(parts, "\n") == parts[0] + "\n" + tail;
      AboveJoined(parts[0], tail, rest);
      SplitAt(parts[0], Above(tail, rest), '\n');
      SplitAbove(parts[1..], rest);
      Uncons(parts, after);
    }
  }

  /** One line above the rest of a picture. */
  lemma SplitLineAbove(line: string, rest: string)
    requires '\n' !in line
    ensures Split(Above(line, rest), '\n') == [line] + Split(rest, '\n')
  {
    SplitAbove([line], rest);
  }

  lemma Uncons<T>(s: seq<T>, after: seq<T>)
    requires |s| > 0
    ensures [s[0]] + (s[1..] + after) == s + after
  {
    assert s == [s[0]] + s[1..];
  }

  lemma Regroup<T>(a: seq<T>, x: T, y: T, w: seq<T>, b: seq<T>)
    ensures a + ([x] + ([y] + (w + b))) == a + [x, y] + w + b
  {
  }

  /** The TV picture splits into exactly its lines. */
  lemma PictureLines(antenna: seq<string>, rows: seq<string>, labelLine: string)
    requires |antenna| > 0 && NoLineFeeds(antenna)
    requires |rows| > 0 && NoLineFeeds(rows)
    requires '\n' !in labelLine
    ensures Split(TvPicture(antenna, rows, labelLine), '\n') == TvLines(antenna, rows, labelLine)
  {
    BordersAreLines();
    WalledLines(rows);
    StackedLines(antenna, Top, InnerTop, Walled(rows), InnerBottom, labelLine, Bottom);
  }

  /**
   * Seven parts stacked as the TV is, each free of line feeds, split into
   * their lines (kept apart from the borders' values so the proof only
   * sees that they hold no line feed).
   */
  lemma StackedLines(antenna: seq<string>, top: string, innerTop: string, walled: seq<string>,
                     innerBottom: string, labelLine: string, bottom: string)
    requires |antenna| > 0 && NoLineFeeds(antenna) && |walled| > 0 && NoLineFeeds(walled)
    requires '\n' !in top && '\n' !in innerTop && '\n' !in innerBottom && '\n' !in labelLine && '\n' !in bottom
    ensures Split(Above(Join(antenna, "\n"), Above(top, Above(innerTop, Above(Join(walled, "\n"),
      Above(innerBottom, Above(labelLine, bottom)))))), '\n')
      == antenna + [top, innerTop] + walled + [innerBottom, labelLine, bottom]
  {
    var r5 := Above(labelLine, bottom);
    var r4 := Above(innerBottom, r5);
    var r3 := Above(Join(walled, "\n"), r4);
    var r2 := Above(innerTop, r3);
    var r1 := Above(top, r2);
    var below := [innerBottom, labelLine, bottom];
    SplitNone(bottom, '\n');
    SplitLineAbove(labelLine, bottom);
    SplitLineAbove(innerBottom, r5);
    assert Split(r4, '\n') == below;
    SplitAbove(walled, r4);
    SplitLineAbove(innerTop, r3);
    SplitLineAbove(top, r2);
    SplitAbove(antenna, r1);
    Regroup(antenna, top, innerTop, walled, below);
  }

  /** The screen rows are ten lines. */
  lemma ScreenRowsAreLines(content: string)
    ensures |ScreenRows(content)| == TvHeight && NoLineFeeds(ScreenRows(content))
  {
    ScreenRowsShape(content);
  }

  /** The walled rows end in a wall, so they form a group of whole lines. */
  lemma WalledGroup(rows: seq<string>)
    requires |rows| > 0
    ensures AsciiArtSheet.IsGroup(Walled(rows), |rows|)
  {
    var last := Walled(rows)[|rows| - 1];
    assert last == "││" + rows[|rows| - 1] + "││";
    assert last[|last| - 1] == '│';
  }

  /** Where each part sits among the lines of a TV with a three-line antenna. */
  lemma TvLinesAt(antenna: seq<string>, rows: seq<string>, labelLine: string)
    requires |antenna| == 3 && |rows| == TvHeight
    ensures var t := TvLines(antenna, rows, labelLine);
      && |t| == 18
      && t[0] == antenna[0] && t[1] == antenna[1] && t[2] == antenna[2]
      && t[3] == Top && t[4] == InnerTop
      && t[5..15] == Walled(rows)
      && t[15] == InnerBottom && t[16] == labelLine && t[17] == Bottom
  {
    var t := TvLines(antenna, rows, labelLine);
    assert t == antenna + [Top, InnerTop] + Walled(rows) + [InnerBottom, labelLine, Bottom];
  }
}
