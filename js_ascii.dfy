/**
 * The web player's reading of a sprite sheet into frames (static/ascii.js).
 * Unlike the app, the web player does not trim the first line, matches the
 * pair `WxH` with a lower-case `x` only, and does not ask that the line
 * name the format: any `WxH` in the first line makes it a header.
 */
module JsAscii {
  import opened Wrappers
  import opened Text
  import opened ArtChunks
  import AsciiArtSheet
  import KtPixelEditor

  /** How parseFrames ends: with frames, or in a loop that never ends. */
  datatype Parsed = Frames(frames: seq<string>) | Diverges

  /** Whether the first line holds a `WxH` pair (case-sensitive). */
  predicate HasDims(header: string)
  {
    FirstDims(header, 0, false).Some?
  }

  /** parseInt of the second group of the leftmost match. */
  function HeaderHeight(header: string): nat
    requires HasDims(header)
  {
    DimsValues(header, FirstDims(header, 0, false).value, false).1
  }

  /**
   * parseFrames as written: the whole text as one frame when the first line
   * holds no pair; otherwise the non-blank chunks of `height` lines after
   * it, or the whole text when there are none. A height of 0 with any line
   * after the first never ends, since `i += 0` does not advance.
   */
  function ParseFramesAsWritten(artString: string): Parsed
  {
    var lines := Split(artString, '\n');
    var header := lines[0];
    if !HasDims(header) then Frames([artString])
    else
      var height := HeaderHeight(header);
      if height == 0 then (if |lines| > 1 then Diverges else Frames([artString]))
      else
        var frames := Chunks(lines[1..], height);
        Frames(if |frames| == 0 then [artString] else frames)
  }

  /**
   * parseFrames with the endless loop mended: a height of 0 is read like a
   * first line with no pair, so the whole text is one frame.
   */
  function ParsedFrames(artString: string): (r: seq<string>)
    ensures |r| > 0
    ensures !HasDims(Split(artString, '\n')[0]) ==> r == [artString]
    ensures forall k :: 0 <= k < |r| ==> r[k] == artString || !IsBlank(r[k])
  {
    var lines := Split(artString, '\n');
    var header := lines[0];
    if !HasDims(header) then [artString]
    else
      var height := HeaderHeight(header);
      if height == 0 then [artString]
      else
        var frames := Chunks(lines[1..], height);
        if |frames| == 0 then [artString] else frames
  }

  /** parseFrames, with its loop, following the mended reading. */
  method ParseFrames(artString: string) returns (frames: seq<string>)
    ensures frames == ParsedFrames(artString)
  {
    // Splitting always gives at least one line, so the source's
    // empty-list branch cannot be taken.
    var lines := Split(artString, '\n');
    var header := lines[0];
    if !HasDims(header) {
      return [artString];
    }
    var height := HeaderHeight(header);
    if height == 0 {
      return [artString];
    }
    frames := ChunkLines(lines[1..], height);
    if |frames| == 0 {
      frames := [artString];
    }
  }

  /**
   * The as-written reading and the mended one agree whenever the former
   * ends, and it fails to end exactly when the first line's pair has
   * height 0 and more lines follow.
   */
  lemma MendedAgrees(artString: string)
    ensures ParseFramesAsWritten(artString).Frames? ==> ParseFramesAsWritten(artString).frames == ParsedFrames(artString)
    ensures ParseFramesAsWritten(artString).Diverges? <==>
      var header := Split(artString, '\n')[0];
      HasDims(header) && HeaderHeight(header) == 0 && |Split(artString, '\n')| > 1
  {
  }

  /** The first line `1x0` followed by a body line: the as-written loop never ends. */
  lemma ZeroHeightDiverges()
    ensures ParseFramesAsWritten("1x0\n#") == Diverges
    ensures ParsedFrames("1x0\n#") == ["1x0\n#"]
  {
    var s := "1x0\n#";
    SplitAt("1x0", "#", '\n');
    assert s == "1x0" + ['\n'] + "#";
    var header := "1x0";
    PairOf("1", "0", "", false);
    assert "1" + ("x" + "0" + "") == header;
    assert DimsAt(header, 0, false);
    assert FirstDims(header, 0, false) == Some(0);
  }

  /**
   * A sprite sheet written as `Ascii Art Animation, WxH`, a tail on the same
   * line that does not continue the height's digits, a line feed and every
   * frame's lines each followed by a line feed, is read as exactly its
   * frames, by the source as written and by the mended reading alike.
   */
  lemma ShowsSheet(w: nat, h: nat, tail: string, groups: seq<seq<string>>)
    requires h > 0 && |groups| > 0
    requires forall k :: 0 <= k < |groups| ==> AsciiArtSheet.IsGroup(groups[k], h)
    requires forall k, j :: 0 <= k < |groups| && 0 <= j < |groups[k]| ==> AsciiArtSheet.IsLine(groups[k][j])
    requires '\n' !in tail && (|tail| > 0 ==> !IsDigit(tail[0]))
    ensures var text := AsciiArtSheet.HeaderText(w, h) + tail + "\n" + AsciiArtSheet.Block(AsciiArtSheet.FramesOf(groups));
      ParseFramesAsWritten(text) == Frames(AsciiArtSheet.FramesOf(groups)) &&
      ParsedFrames(text) == AsciiArtSheet.FramesOf(groups)
  {
    var header := AsciiArtSheet.HeaderText(w, h) + tail;
    StandardHeaderHeight(w, h, tail);
    SheetLines(header, groups, h);
  }

  /** The standard header line with such a tail is one line whose pair has height H. */
  lemma StandardHeaderHeight(w: nat, h: nat, tail: string)
    requires '\n' !in tail && (|tail| > 0 ==> !IsDigit(tail[0]))
    ensures var header := AsciiArtSheet.HeaderText(w, h) + tail;
      '\n' !in header && HasDims(header) && HeaderHeight(header) == h
  {
    AsciiArtSheet.HeaderIsLine(w, h);
    StandardHeaderDims(w, h, tail, false);
  }

  /** Display of a sheet with whole frames is read by the web player as exactly those frames. */
  lemma ShowsDisplay(w: nat, h: nat, groups: seq<seq<string>>)
    requires h > 0 && |groups| > 0
    requires forall k :: 0 <= k < |groups| ==> AsciiArtSheet.IsGroup(groups[k], h)
    requires forall k, j :: 0 <= k < |groups| && 0 <= j < |groups[k]| ==> AsciiArtSheet.IsLine(groups[k][j])
    ensures ParsedFrames(AsciiArtSheet.Display(AsciiArtSheet.Sheet(w, h, AsciiArtSheet.FramesOf(groups))))
      == AsciiArtSheet.FramesOf(groups)
  {
    ShowsSheet(w, h, "", groups);
    assert AsciiArtSheet.HeaderText(w, h) + "" == AsciiArtSheet.HeaderText(w, h);
  }

  /**
   * The art the pixel editor exports is shown by the web player as one
   * frame per edited frame, each the braille text of that frame.
   */
  lemma ShowsExport(frames: seq<KtPixelEditor.PixelFrame>, charWidth: nat, charHeight: nat, fpsText: string)
    requires |frames| > 0 && charWidth > 0 && charHeight > 0
    requires KtPixelEditor.AllShaped(frames, charWidth, charHeight)
    requires '\n' !in fpsText
    ensures ParsedFrames(KtPixelEditor.BrailleArt(frames, charWidth, charHeight, fpsText))
      == KtPixelEditor.FrameTexts(frames)
  {
    var tail := ", " + fpsText + "fps";
    var groups := KtPixelEditor.ExportIsSheet(frames, charWidth, charHeight, fpsText);
    KtPixelEditor.FpsTail(fpsText);
    ShowsSheet(charWidth, charHeight, tail, groups);
  }
}
