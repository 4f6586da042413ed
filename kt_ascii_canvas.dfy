/**
 * The text side of the Compose ASCII canvas: reading a sprite sheet into
 * frames (parseFrames), padding helpers, the ten screen rows cut from a
 * piece of content (formatContentToLines) and the TV picture drawn around
 * them (renderContentToString).
 */
module KtAsciiCanvas {
  import opened Wrappers
  import opened Text
  import opened TvLayout
  import opened ArtChunks
  import AsciiArtSheet
  import KtPixelEditor

  /** Kotlin's Int.MAX_VALUE: `toInt` throws on a larger number. */
  const IntMax: nat := 0x7FFF_FFFF

  /** What parseFrames does with a text, as written. */
  datatype Parsed =
    | Frames(frames: seq<string>)
      /** The header's height does not fit an Int and `toInt` throws. */
    | HeightOverflow
      /** The header's height is 0 and there are body lines: the loop index never moves. */
    | Diverges

  /** ASCII lower-casing of a whole text. */
  function Lowered(s: string): (r: string)
    ensures |r| == |s|
    ensures forall i :: 0 <= i < |s| ==> r[i] == ToLower(s[i])
  {
    seq(|s|, i requires 0 <= i < |s| => ToLower(s[i]))
  }

  /** `contains(pattern, ignoreCase = true)` for a pattern written in lower case. */
  predicate ContainsIgnoringCase(s: string, lowerPattern: string)
  {
    Contains(Lowered(s), lowerPattern)
  }

  /**
   * A header line has a `WxH` pair (either case of `x`) and names "ascii"
   * or "animation", or is nothing but the pair. The line is already
   * trimmed, so the pattern's optional surrounding whitespace is empty.
   */
  predicate LooksLikeHeader(header: string)
  {
    FirstDims(header, 0, true).Some? &&
    (ContainsIgnoringCase(header, "ascii") || ContainsIgnoringCase(header, "animation") || WholeDims(header, true))
  }

  /** The trimmed first line of a text. */
  function HeaderOf(artString: string): string
  {
    Trim(Split(artString, '\n')[0])
  }

  /** The height of a header-like line: the second number of its first pair. */
  function HeaderHeight(header: string): nat
    requires LooksLikeHeader(header)
  {
    DimsValues(header, FirstDims(header, 0, true).value, true).1
  }

  /**
   * parseFrames as written: the whole text as one frame when the first line
   * is not header-like; otherwise the chunks of `height` body lines that are
   * not blank, or the whole text when there are none. A height above
   * Int.MAX_VALUE throws, and a height of 0 with any body line never ends.
   */
  function ParseFramesAsWritten(artString: string): (r: Parsed)
  {
    var lines := Split(artString, '\n');
    var header := Trim(lines[0]);
    if !LooksLikeHeader(header) then Frames([artString])
    else
      var height := HeaderHeight(header);
      if height > IntMax then HeightOverflow
      else if height == 0 then (if |lines| > 1 then Diverges else Frames([artString]))
      else
        var frames := Chunks(lines[1..], height);
        Frames(if |frames| == 0 then [artString] else frames)
  }

  /**
   * parseFrames with the two failures mended: a header whose height is 0 or
   * does not fit an Int is read like a line that is not a header, so the
   * whole text is one frame.
   */
  function ParsedFrames(artString: string): (r: seq<string>)
    ensures |r| > 0
    ensures !LooksLikeHeader(HeaderOf(artString)) ==> r == [artString]
    ensures forall k :: 0 <= k < |r| ==> r[k] == artString || !IsBlank(r[k])
  {
    var lines := Split(artString, '\n');
    var header := Trim(lines[0]);
    if !LooksLikeHeader(header) then [artString]
    else
      var height := HeaderHeight(header);
      if height == 0 || height > IntMax then [artString]
      else
        var frames := Chunks(lines[1..], height);
        if |frames| == 0 then [artString] else frames
  }

  /** parseFrames, with its loop, following the mended reading. */
  method ParseFrames(artString: string) returns (frames: seq<string>)
    ensures frames == ParsedFrames(artString)
  {
    // Splitting always gives at least one line, so the source's
    // empty-list branch cannot be taken.
    var lines := Split(artString, '\n');
    var header := Trim(lines[0]);
    if !LooksLikeHeader(header) {
      return [artString];
    }
    var height := HeaderHeight(header);
    if height == 0 || height > IntMax {
      return [artString];
    }
    frames := ChunkLines(lines[1..], height);
    if |frames| == 0 {
      frames := [artString];
    }
  }

  /**
   * The as-written reading and the mended one agree whenever the former
   * ends normally, and it fails exactly on a header-like first line whose
   * height does not fit an Int, or is 0 with body lines after it.
   */
  lemma MendedAgrees(artString: string)
    ensures ParseFramesAsWritten(artString).Frames? ==> ParseFramesAsWritten(artString).frames == ParsedFrames(artString)
    ensures !ParseFramesAsWritten(artString).Frames? <==>
      var header := HeaderOf(artString);
      LooksLikeHeader(header) &&
      (HeaderHeight(header) > IntMax || (HeaderHeight(header) == 0 && |Split(artString, '\n')| > 1))
  {
  }

  /** The first line `1x0` followed by a body line: the as-written loop never ends. */
  lemma ZeroHeightDiverges()
    ensures ParseFramesAsWritten("1x0\n#") == Diverges
    ensures ParsedFrames("1x0\n#") == ["1x0\n#"]
  {
    var s := "1x0\n#";
    SplitAt("1x0", "#", '\n');
    assert s == "1x0" + ['\n'] + "#";
    var header := "1x0";
    assert Trim(header) == header;
    PairOf("1", "0", "", true);
    assert "1" + ("x" + "0" + "") == header;
    assert DimsAt(header, 0, true);
    assert FirstDims(header, 0, true) == Some(0);
    assert LeadingDigits(header) == 1;
    assert header[2..] == "0";
    assert WholeDims(header, true);
  }

  /** The number 2147483648, one more than Int.MAX_VALUE. */
  lemma BeyondIntMax()
    ensures AllDigits("2147483648") && DigitsValue("2147483648") == IntMax + 1
  {
    var s: string := [];
    var v := 0;
    s, v := AppendDigit(s, v, '2');
    s, v := AppendDigit(s, v, '1');
    s, v := AppendDigit(s, v, '4');
    s, v := AppendDigit(s, v, '7');
    s, v := AppendDigit(s, v, '4');
    s, v := AppendDigit(s, v, '8');
    s, v := AppendDigit(s, v, '3');
    s, v := AppendDigit(s, v, '6');
    s, v := AppendDigit(s, v, '4');
    s, v := AppendDigit(s, v, '8');
    assert s == "2147483648";
  }

  /** The first line `1x2147483648`: `toInt` throws as written. */
  lemma HugeHeightThrows()
    ensures ParseFramesAsWritten("1x2147483648") == HeightOverflow
    ensures ParsedFrames("1x2147483648") == ["1x2147483648"]
  {
    var header := "1x2147483648";
    SplitNone(header, '\n');
    assert Trim(header) == header;
    HugeHeader();
  }

  /** `1x2147483648` is a header-like line whose height is Int.MAX_VALUE + 1. */
  lemma HugeHeader()
    ensures LooksLikeHeader("1x2147483648") && HeaderHeight("1x2147483648") == IntMax + 1
  {
    var header := "1x2147483648";
    BeyondIntMax();
    PairOf("1", "2147483648", "", true);
    assert "1" + ("x" + "2147483648" + "") == header;
    assert FirstDims(header, 0, true) == Some(0);
    assert LeadingDigits(header) == 1;
    assert header[2..] == "2147483648";
    assert WholeDims(header, true);
  }

  /** A header that starts with the standard prefix names "ascii" when case is ignored. */
  lemma StandardHeaderNamesAscii(s: string)
    requires StartsWith(s, AsciiArtSheet.HeaderPrefix)
    ensures ContainsIgnoringCase(s, "ascii")
  {
    var low := Lowered(s);
    assert s[..5] == AsciiArtSheet.HeaderPrefix[..5] == "Ascii";
    assert low[..5] == "ascii";
  }

  /**
   * A sprite sheet written as `Ascii Art Animation, WxH`, an optional tail
   * on the same line, a line feed and every frame's lines each followed by
   * a line feed, is read as exactly its frames, by the source as written
   * and by the mended reading alike.
   */
  lemma ShowsSheet(w: nat, h: nat, tail: string, groups: seq<seq<string>>)
    requires 0 < h <= IntMax && |groups| > 0
    requires forall k :: 0 <= k < |groups| ==> AsciiArtSheet.IsGroup(groups[k], h)
    requires forall k, j :: 0 <= k < |groups| && 0 <= j < |groups[k]| ==> AsciiArtSheet.IsLine(groups[k][j])
    requires '\n' !in tail && (|tail| > 0 ==> !IsDigit(tail[0]) && !IsSpace(tail[|tail| - 1]))
    ensures var text := AsciiArtSheet.HeaderText(w, h) + tail + "\n" + AsciiArtSheet.Block(AsciiArtSheet.FramesOf(groups));
      ParseFramesAsWritten(text) == Frames(AsciiArtSheet.FramesOf(groups)) &&
      ParsedFrames(text) == AsciiArtSheet.FramesOf(groups)
  {
    var header := AsciiArtSheet.HeaderText(w, h) + tail;
    StandardHeaderReads(w, h, tail);
    SheetLines(header, groups, h);
  }

  /** The standard header line with such a tail is its own trim, looks like a header, and has height H. */
  lemma StandardHeaderReads(w: nat, h: nat, tail: string)
    requires '\n' !in tail && (|tail| > 0 ==> !IsDigit(tail[0]) && !IsSpace(tail[|tail| - 1]))
    ensures var header := AsciiArtSheet.HeaderText(w, h) + tail;
      && '\n' !in header
      && Trim(header) == header
      && LooksLikeHeader(header)
      && HeaderHeight(header) == h
  {
    var header := AsciiArtSheet.HeaderText(w, h) + tail;
    AsciiArtSheet.HeaderIsLine(w, h);
    StandardHeaderDims(w, h, tail, true);
    HeaderEnds(w, h, tail);
    TrimUnchanged(header);
    assert StartsWith(header, AsciiArtSheet.HeaderPrefix);
    StandardHeaderNamesAscii(header);
  }

  /** The standard header line starts and ends with a character that is not whitespace. */
  lemma HeaderEnds(w: nat, h: nat, tail: string)
    requires |tail| > 0 ==> !IsSpace(tail[|tail| - 1])
    ensures var header := AsciiArtSheet.HeaderText(w, h) + tail;
      |header| > 0 && !IsSpace(header[0]) && !IsSpace(header[|header| - 1])
  {
    var hs := NatToString(h);
    var header := AsciiArtSheet.HeaderText(w, h) + tail;
    assert AsciiArtSheet.HeaderText(w, h) == AsciiArtSheet.HeaderPrefix + NatToString(w) + "x" + hs;
    assert header[0] == 'A';
    if |tail| == 0 {
      assert header[|header| - 1] == hs[|hs| - 1];
      assert IsDigit(hs[|hs| - 1]);
    }
  }

  /** Display of a sheet with whole frames is read by the canvas as exactly those frames. */
  lemma ShowsDisplay(w: nat, h: nat, groups: seq<seq<string>>)
    requires 0 < h <= IntMax && |groups| > 0
    requires forall k :: 0 <= k < |groups| ==> AsciiArtSheet.IsGroup(groups[k], h)
    requires forall k, j :: 0 <= k < |groups| && 0 <= j < |groups[k]| ==> AsciiArtSheet.IsLine(groups[k][j])
    ensures ParsedFrames(AsciiArtSheet.Display(AsciiArtSheet.Sheet(w, h, AsciiArtSheet.FramesOf(groups))))
      == AsciiArtSheet.FramesOf(groups)
  {
    ShowsSheet(w, h, "", groups);
    assert AsciiArtSheet.HeaderText(w, h) + "" == AsciiArtSheet.HeaderText(w, h);
  }

  /**
   * The art the pixel editor exports is shown by the canvas as one frame
   * per edited frame, each the braille text of that frame.
   */
  lemma ShowsExport(frames: seq<KtPixelEditor.PixelFrame>, charWidth: nat, charHeight: nat, fpsText: string)
    requires |frames| > 0 && charWidth > 0 && 0 < charHeight <= IntMax
    requires KtPixelEditor.AllShaped(frames, charWidth, charHeight)
    requires '\n' !in fpsText
    ensures ParsedFrames(KtPixelEditor.BrailleArt(frames, charWidth, charHeight, fpsText))
      == KtPixelEditor.FrameTexts(frames)
  {
    var tail := ", " + fpsText + "fps";
    var groups := KtPixelEditor.ExportIsSheet(frames, charWidth, charHeight, fpsText);
    KtPixelEditor.FpsTail(fpsText);
    ShowsSheet(charWidth, charHeight, tail, groups);
  }

  // The screen

  /** formatContentToLines: the content's centred lines, blank rows added below until there are ten, then the first ten. */
  method FormatContentToLines(content: string) returns (r: seq<string>)
    ensures r == ScreenRows(content)
  {
    var lines := ContentLines(content);
    var centered := Centered(lines);
    var formattedLines := centered;
    while |formattedLines| < TvHeight
      invariant |centered| <= |formattedLines|
      invariant |centered| < TvHeight ==> |formattedLines| <= TvHeight
      invariant formattedLines == centered + seq(|formattedLines| - |centered|, _ => Spaces(TvWidth))
      decreases TvHeight - |formattedLines|
    {
      formattedLines := formattedLines + [Spaces(TvWidth)];
    }
    FilledRows(centered, formattedLines);
    r := formattedLines[..TvHeight];
  }

  /** The antenna lines, a third of the screen width in, as the source builds them. */
  const AntennaOffset: nat := TvWidth / 3
  const Antenna: seq<string> := [
    Spaces(AntennaOffset) + "╱",
    Spaces(AntennaOffset - 4) + "╲  ╱",
    Spaces(AntennaOffset - 3) + "╲╱"]

  /** The label centred in the width inside the outer walls. */
  const LabelLine: string := "│" + Padded(Label, TvWidth + 2) + "│"

  /**
   * renderContentToString: the antenna (three lines appended with line
   * feeds, the last line feed trimmed), the borders, the ten rows between
   * double walls (appended the same way and trimmed), the label and the
   * bottom border. The rows always number ten, so the blank row the source
   * falls back to for a missing one is never used.
   */
  function RenderContentToString(content: string): string
  {
    var rows := ScreenRows(content);
    var antenna := TrimEnd(AsciiArtSheet.Block(Antenna));
    var contentLines := TrimEnd(AsciiArtSheet.Block(Walled(rows)));
    Above(antenna,
      Above(Top,
        Above(InnerTop,
          Above(contentLines,
            Above(InnerBottom,
              Above(LabelLine, Bottom))))))
  }

  /** The antenna is a V drawn at columns 6 to 10, and hangs no line feed into the picture. */
  lemma AntennaShape()
    ensures Antenna == [Spaces(10) + "╱", Spaces(6) + "╲  ╱", Spaces(7) + "╲╱"]
    ensures NoLineFeeds(Antenna)
    ensures AsciiArtSheet.IsGroup(Antenna, 3)
  {
    assert '\n' !in Spaces(10) && '\n' !in Spaces(6) && '\n' !in Spaces(7);
    assert '\n' !in "╱" && '\n' !in "╲  ╱" && '\n' !in "╲╱";
  }

  /** The label has 13 spaces before it and 14 after, inside the outer walls. */
  lemma LabelCentred()
    ensures LabelLine == "│" + Spaces(13) + Label + Spaces(14) + "│"
    ensures '\n' !in LabelLine
  {
    assert Padded(Label, TvWidth + 2) == Spaces(13) + Label + Spaces(14);
    assert '\n' !in Spaces(13) && '\n' !in Spaces(14) && '\n' !in Label && '\n' !in "│";
  }

  /**
   * The rendered TV is 18 lines: the three antenna lines, the two top
   * borders, each of the ten screen rows between double walls, the inner
   * bottom border, the label line and the bottom border.
   */
  lemma RenderLines(content: string)
    ensures Split(RenderContentToString(content), '\n') == TvLines(Antenna, ScreenRows(content), LabelLine)
    ensures |TvLines(Antenna, ScreenRows(content), LabelLine)| == 18
  {
    var rows := ScreenRows(content);
    ScreenRowsAreLines(content);
    AntennaShape();
    LabelCentred();
    WalledGroup(rows);
    AsciiArtSheet.GroupTrim(Antenna, 3);
    AsciiArtSheet.GroupTrim(Walled(rows), |rows|);
    PictureLines(Antenna, rows, LabelLine);
  }
}
