/**
 * The web player's TV (static/asciiCanvas.js): the content centred on a
 * 32 by 10 screen inside a picture of a TV with an antenna and a label.
 * The padding helpers are the shared TvLayout.PaddedRight and
 * TvLayout.Padded; the picture differs from the app's only in where the
 * antenna and the label sit.
 */
module JsAsciiCanvas {
  import opened Text
  import opened TvLayout
  import KtAsciiCanvas

  /** The antenna lines of the template, twelve, eight and nine columns in. */
  const JsAntenna: seq<string> := [Spaces(12) + "╱", Spaces(8) + "╲  ╱", Spaces(9) + "╲╱"]

  /** The label line of the template: 14 spaces before the label and 13 after. */
  const JsLabelLine: string := "│" + Spaces(14) + Label + Spaces(13) + "│"

  /** The picture renderContentToString gives for a content frame. */
  function JsPicture(content: string): string
  {
    TvPicture(JsAntenna, ScreenRows(content), JsLabelLine)
  }

  /**
   * renderContentToString: blank patterns become spaces, the lines are
   * padded to the widest one and centred on the screen width, blank rows
   * are pushed until there are ten, and the template shows rows 0 to 9
   * between the borders (written out in the template, here by Repeat).
   */
  method RenderContentToString(content: string) returns (r: string)
    ensures r == JsPicture(content)
  {
    var lines := ContentLines(content);
    var formattedLines := Centered(lines);
    ghost var centered := formattedLines;
    while |formattedLines| < TvHeight
      invariant |centered| <= |formattedLines|
      invariant |centered| < TvHeight ==> |formattedLines| <= TvHeight
      invariant formattedLines == centered + seq(|formattedLines| - |centered|, _ => Spaces(TvWidth))
      decreases TvHeight - |formattedLines|
    {
      formattedLines := formattedLines + [Spaces(TvWidth)];
    }
    assert formattedLines[..TvHeight] == ScreenRows(content) by {
      FilledRows(centered, formattedLines);
    }
    r := TvPicture(JsAntenna, formattedLines[..TvHeight], JsLabelLine);
  }

  /** The antenna and the label hold no line feed. */
  lemma JsPartsAreLines()
    ensures NoLineFeeds(JsAntenna) && '\n' !in JsLabelLine
  {
    assert '\n' !in Spaces(12) && '\n' !in Spaces(8) && '\n' !in Spaces(9);
    assert '\n' !in "╱" && '\n' !in "╲  ╱" && '\n' !in "╲╱";
    assert '\n' !in Spaces(14) && '\n' !in Spaces(13) && '\n' !in Label && '\n' !in "│";
  }

  /**
   * The web TV is 18 lines: the three antenna lines, the two top borders,
   * each of the ten screen rows between double walls, the inner bottom
   * border, the label line and the bottom border.
   */
  lemma JsPictureLines(content: string)
    ensures Split(JsPicture(content), '\n') == TvLines(JsAntenna, ScreenRows(content), JsLabelLine)
    ensures |TvLines(JsAntenna, ScreenRows(content), JsLabelLine)| == 18
  {
    ScreenRowsAreLines(content);
    JsPartsAreLines();
    PictureLines(JsAntenna, ScreenRows(content), JsLabelLine);
  }

  /** Two more spaces in front of a line. */
  lemma TwoMore(n: nat, s: string)
    ensures Spaces(n + 2) + s == "  " + (Spaces(n) + s)
  {
    assert Spaces(n + 2) == "  " + Spaces(n);
  }

  /**
   * On the same ten screen rows the web TV and the app's TV have the same
   * borders and walled rows: they differ only in that each antenna line
   * sits two columns further right on the web, and in the label line,
   * which the app centres with 13 spaces before the label and 14 after,
   * the web with 14 before and 13 after. With RenderLines and
   * JsPictureLines this compares the two rendered pictures line by line.
   */
  lemma SameScreenAsApp(rows: seq<string>)
    requires |rows| == TvHeight
    ensures var app := TvLines(KtAsciiCanvas.Antenna, rows, KtAsciiCanvas.LabelLine);
      var web := TvLines(JsAntenna, rows, JsLabelLine);
      && |app| == |web| == 18
      && (forall i :: 0 <= i < 3 ==> web[i] == "  " + app[i])
      && (forall i :: 3 <= i < 18 && i != 16 ==> web[i] == app[i])
      && |app[16]| == |web[16]| == TvWidth + 4
      && app[16][14] == 'T' && web[16][14] == ' '
  {
    TvLinesAt(KtAsciiCanvas.Antenna, rows, KtAsciiCanvas.LabelLine);
    TvLinesAt(JsAntenna, rows, JsLabelLine);
    AntennaShifted();
    LabelsDiffer();
    var app := TvLines(KtAsciiCanvas.Antenna, rows, KtAsciiCanvas.LabelLine);
    var web := TvLines(JsAntenna, rows, JsLabelLine);
    forall i | 3 <= i < 18 && i != 16
      ensures web[i] == app[i]
    {
      if 5 <= i < 15 {
        assert web[i] == web[5..15][i - 5] && app[i] == app[5..15][i - 5];
      }
    }
  }

  /** Each web antenna line is the app's with two more spaces in front. */
  lemma AntennaShifted()
    ensures |JsAntenna| == |KtAsciiCanvas.Antenna| == 3
    ensures forall i :: 0 <= i < 3 ==> JsAntenna[i] == "  " + KtAsciiCanvas.Antenna[i]
  {
    KtAsciiCanvas.AntennaShape();
    TwoMore(10, "╱");
    TwoMore(6, "╲  ╱");
    TwoMore(7, "╲╱");
  }

  /** Both label lines are as wide as the borders; column 14 starts the label in the app and is blank on the web. */
  lemma LabelsDiffer()
    ensures |KtAsciiCanvas.LabelLine| == |JsLabelLine| == TvWidth + 4
    ensures KtAsciiCanvas.LabelLine[14] == 'T' && JsLabelLine[14] == ' '
  {
    KtAsciiCanvas.LabelCentred();
    assert KtAsciiCanvas.LabelLine[14] == Label[0];
    assert JsLabelLine[14] == Spaces(14)[13];
  }
}
