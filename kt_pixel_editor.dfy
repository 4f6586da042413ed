/**
 * The frame operations of the Kotlin pixel editor: blank, cleared and
 * filled frames, single-pixel edits, the dimension and frame-rate
 * validators, the centred resize and the export of a frame list as a
 * braille sprite sheet.
 *
 * A frame's pixel rows are values here: the copy the editor makes before
 * every write is what a sequence update already is.
 */
module KtPixelEditor {
  import opened Wrappers
  import opened Text
  import opened KtBrailleConverter
  import opened BraillePatterns
  import AsciiArtSheet
  import ContentFile

  /** A frame: rows of pixels, `height` rows of `width` pixels each. */
  datatype PixelFrame = PixelFrame(pixels: seq<seq<bool>>, width: int, height: int)

  datatype ValidationResult = Valid | Invalid(message: string)

  predicate WellFormed(f: PixelFrame)
  {
    0 <= f.width && 0 <= f.height && |f.pixels| == f.height &&
    forall y :: 0 <= y < |f.pixels| ==> |f.pixels[y]| == f.width
  }

  /** Every pixel of the frame is `value`. */
  predicate Uniform(f: PixelFrame, value: bool)
    requires WellFormed(f)
  {
    forall y, x :: 0 <= y < f.height && 0 <= x < f.width ==> f.pixels[y][x] == value
  }

  /** `height` rows of `width` pixels, all set to `value`. */
  function Grid(width: nat, height: nat, value: bool): (g: seq<seq<bool>>)
    ensures |g| == height
    ensures forall y :: 0 <= y < height ==> |g[y]| == width
    ensures forall y, x :: 0 <= y < height && 0 <= x < width ==> g[y][x] == value
  {
    seq(height, _ => seq(width, _ => value))
  }

  // ---------------------------------------------------------------------
  // create, clear, fill

  /** createEmptyFrame: a width x height frame with no pixel set. */
  function CreateEmptyFrame(width: int, height: int): (f: PixelFrame)
    requires 0 <= width && 0 <= height
    ensures WellFormed(f) && f.width == width && f.height == height
    ensures Uniform(f, false)
  {
    PixelFrame(Grid(width, height, false), width, height)
  }

  /** clearFrame: a frame of the same size with no pixel set. */
  function ClearFrame(frame: PixelFrame): (f: PixelFrame)
    requires 0 <= frame.width && 0 <= frame.height
    ensures WellFormed(f) && f.width == frame.width && f.height == frame.height
    ensures Uniform(f, false)
  {
    PixelFrame(Grid(frame.width, frame.height, false), frame.width, frame.height)
  }

  /** fillFrame: a frame of the same size with every pixel set. */
  function FillFrame(frame: PixelFrame): (f: PixelFrame)
    requires 0 <= frame.width && 0 <= frame.height
    ensures WellFormed(f) && f.width == frame.width && f.height == frame.height
    ensures Uniform(f, true)
  {
    PixelFrame(Grid(frame.width, frame.height, true), frame.width, frame.height)
  }

  /** Two well-formed frames of the same size that agree on every pixel are the same frame. */
  lemma SameFrame(f: PixelFrame, g: PixelFrame)
    requires WellFormed(f) && WellFormed(g) && f.width == g.width && f.height == g.height
    requires forall y, x :: 0 <= y < f.height && 0 <= x < f.width ==> f.pixels[y][x] == g.pixels[y][x]
    ensures f == g
  {
    forall y | 0 <= y < f.height
      ensures f.pixels[y] == g.pixels[y]
    {
    }
  }

  /**
   * Clearing any frame, filled or not, gives the blank frame of its size, and
   * clearing or filling depends on nothing but the size.
   */
  lemma ClearIsEmpty(frame: PixelFrame)
    requires 0 <= frame.width && 0 <= frame.height
    ensures ClearFrame(frame) == CreateEmptyFrame(frame.width, frame.height)
    ensures ClearFrame(FillFrame(frame)) == ClearFrame(frame)
    ensures FillFrame(ClearFrame(frame)) == FillFrame(frame)
    ensures FillFrame(frame) != ClearFrame(frame) <==> frame.width > 0 && frame.height > 0
  {
    var c, l := ClearFrame(frame), FillFrame(frame);
    SameFrame(c, CreateEmptyFrame(frame.width, frame.height));
    SameFrame(ClearFrame(l), c);
    SameFrame(FillFrame(c), l);
    if frame.width > 0 && frame.height > 0 {
      assert c.pixels[0][0] != l.pixels[0][0];
    } else if frame.height > 0 {
      SameFrame(c, l);
    } else {
      assert c.pixels == [] == l.pixels;
    }
  }

  // ---------------------------------------------------------------------
  // setPixel

  predicate InBounds(f: PixelFrame, x: int, y: int)
  {
    0 <= x < f.width && 0 <= y < f.height
  }

  /**
   * setPixel: a copy of the frame with pixel (x, y) set to `value`, or the
   * frame itself when (x, y) lies outside it. The frame passed in is a value
   * and is never changed.
   */
  function SetPixel(frame: PixelFrame, x: int, y: int, value: bool): (f: PixelFrame)
    requires WellFormed(frame)
    ensures WellFormed(f) && f.width == frame.width && f.height == frame.height
    ensures !InBounds(frame, x, y) ==> f == frame
    ensures InBounds(frame, x, y) ==> f.pixels[y][x] == value
    ensures forall y', x' :: 0 <= y' < f.height && 0 <= x' < f.width && (y', x') != (y, x) ==>
      f.pixels[y'][x'] == frame.pixels[y'][x']
  {
    if x < 0 || x >= frame.width || y < 0 || y >= frame.height then frame
    else frame.(pixels := frame.pixels[y := frame.pixels[y][x := value]])
  }

  /** Writing back the old value undoes an edit, and a second identical edit changes nothing. */
  lemma SetPixelUndo(frame: PixelFrame, x: int, y: int, value: bool)
    requires WellFormed(frame)
    ensures InBounds(frame, x, y) ==> SetPixel(SetPixel(frame, x, y, value), x, y, frame.pixels[y][x]) == frame
    ensures SetPixel(SetPixel(frame, x, y, value), x, y, value) == SetPixel(frame, x, y, value)
  {
    var f := SetPixel(frame, x, y, value);
    if InBounds(frame, x, y) {
      SameFrame(SetPixel(f, x, y, frame.pixels[y][x]), frame);
      SameFrame(SetPixel(f, x, y, value), f);
    }
  }

  // ---------------------------------------------------------------------
  // validators

  const NotPositive := "Width and height must be greater than 0"
  const OddWidth := "Width must be a multiple of 2"
  const HeightNotMultipleOf4 := "Height must be a multiple of 4"
  const WidthTooLarge := "Width must be 128 or less"
  const HeightTooLarge := "Height must be 128 or less"

  /** The largest canvas side the editor accepts. */
  const MaxSide := 128

  /**
   * validateDimensions: Valid exactly for positive sizes up to 128 with an
   * even width and a height that is a multiple of 4; otherwise the message
   * of the first check that fails, in the order positivity, width parity,
   * height multiple, width bound, height bound.
   */
  function ValidateDimensions(width: int, height: int): (r: ValidationResult)
    ensures r == Valid <==> 0 < width <= MaxSide && 0 < height <= MaxSide && width % 2 == 0 && height % 4 == 0
    ensures (width <= 0 || height <= 0) ==> r == Invalid(NotPositive)
    ensures (width > 0 && height > 0 && width % 2 != 0) ==> r == Invalid(OddWidth)
    ensures (width > 0 && height > 0 && width % 2 == 0 && height % 4 != 0) ==> r == Invalid(HeightNotMultipleOf4)
    ensures (width > MaxSide && height > 0 && width % 2 == 0 && height % 4 == 0) ==> r == Invalid(WidthTooLarge)
    ensures (0 < width <= MaxSide && height > MaxSide && width % 2 == 0 && height % 4 == 0) ==> r == Invalid(HeightTooLarge)
  {
    if width <= 0 || height <= 0 then Invalid(NotPositive)
    else if width % 2 != 0 then Invalid(OddWidth)
    else if height % 4 != 0 then Invalid(HeightNotMultipleOf4)
    else if width > MaxSide then Invalid(WidthTooLarge)
    else if height > MaxSide then Invalid(HeightTooLarge)
    else Valid
  }

  const FpsTooLow := "FPS must be at least 1"
  const FpsTooHigh := "FPS must be 30 or less"

  /** validateFps: Valid exactly for rates from 1 to 30, else the message of the bound that is broken. */
  function ValidateFps(fps: real): (r: ValidationResult)
    ensures r == Valid <==> 1.0 <= fps <= 30.0
    ensures fps < 1.0 ==> r == Invalid(FpsTooLow)
    ensures fps > 30.0 ==> r == Invalid(FpsTooHigh)
  {
    if fps < 1.0 then Invalid(FpsTooLow)
    else if fps > 30.0 then Invalid(FpsTooHigh)
    else Valid
  }

  /** A valid canvas splits into whole braille cells, between 1x1 and 64x32 of them. */
  lemma ValidCanvasIsWholeCells(width: int, height: int)
    requires ValidateDimensions(width, height) == Valid
    ensures Shaped(Grid(width, height, false), width / 2, height / 4)
    ensures 1 <= width / 2 <= 64 && 1 <= height / 4 <= 32
  {
  }

  // ---------------------------------------------------------------------
  // resizeFrame

  /** Kotlin's `n / 2` on Int: the quotient truncated toward zero. */
  function HalfTowardZero(n: int): (h: int)
    ensures n >= 0 ==> 0 <= 2 * h <= n < 2 * h + 2
    ensures n < 0 ==> 2 * h - 2 < n <= 2 * h <= 0
  {
    if n >= 0 then n / 2 else -((-n) / 2)
  }

  /** Truncating division is symmetric: halving the negation negates the half. */
  lemma HalfOfNegation(n: int)
    ensures HalfTowardZero(-n) == -HalfTowardZero(n)
  {
  }

  /** The pixel that lands on (tx, ty) when `frame` is centred on a newWidth x newHeight canvas. */
  function Landing(frame: PixelFrame, newWidth: int, newHeight: int, tx: int, ty: int): bool
    requires WellFormed(frame)
  {
    var sx := tx - HalfTowardZero(newWidth - frame.width);
    var sy := ty - HalfTowardZero(newHeight - frame.height);
    0 <= sx < frame.width && 0 <= sy < frame.height && frame.pixels[sy][sx]
  }

  /** The resized frame: each of its pixels is the old pixel that lands on it, or clear. */
  function Resized(frame: PixelFrame, newWidth: int, newHeight: int): (f: PixelFrame)
    requires WellFormed(frame) && 0 <= newWidth && 0 <= newHeight
    ensures WellFormed(f) && f.width == newWidth && f.height == newHeight
  {
    PixelFrame(seq(newHeight, ty => seq(newWidth, tx => Landing(frame, newWidth, newHeight, tx, ty))), newWidth, newHeight)
  }

  lemma ResizedPixel(frame: PixelFrame, newWidth: int, newHeight: int, tx: int, ty: int)
    requires WellFormed(frame) && 0 <= tx < newWidth && 0 <= ty < newHeight
    ensures Resized(frame, newWidth, newHeight).pixels[ty][tx] == Landing(frame, newWidth, newHeight, tx, ty)
  {
  }

  /**
   * Every pixel (x, y) of the old frame moves by half the growth in each
   * direction, truncated toward zero, and is kept when it lands inside.
   */
  lemma ResizeMovesPixels(frame: PixelFrame, newWidth: int, newHeight: int, x: int, y: int)
    requires WellFormed(frame) && 0 <= newWidth && 0 <= newHeight && InBounds(frame, x, y)
    requires InBounds(Resized(frame, newWidth, newHeight),
      x + HalfTowardZero(newWidth - frame.width), y + HalfTowardZero(newHeight - frame.height))
    ensures Resized(frame, newWidth, newHeight).pixels
      [y + HalfTowardZero(newHeight - frame.height)][x + HalfTowardZero(newWidth - frame.width)] == frame.pixels[y][x]
  {
    ResizedPixel(frame, newWidth, newHeight, x + HalfTowardZero(newWidth - frame.width), y + HalfTowardZero(newHeight - frame.height));
  }

  /** A pixel of the resized frame that no old pixel lands on is clear. */
  lemma ResizedElsewhereClear(frame: PixelFrame, newWidth: int, newHeight: int, tx: int, ty: int)
    requires WellFormed(frame) && 0 <= newWidth && 0 <= newHeight
    requires 0 <= tx < newWidth && 0 <= ty < newHeight
    requires var sx, sy := tx - HalfTowardZero(newWidth - frame.width), ty - HalfTowardZero(newHeight - frame.height);
      !(0 <= sx < frame.width && 0 <= sy < frame.height)
    ensures !Resized(frame, newWidth, newHeight).pixels[ty][tx]
  {
    ResizedPixel(frame, newWidth, newHeight, tx, ty);
  }

  /** Whether pixel (tx, ty) of the new canvas has been written once rows before `row`, and pixels before `col` of `row`, are copied. */
  function Copied(frame: PixelFrame, offsetX: int, offsetY: int, row: int, col: int, tx: int, ty: int): bool
    requires WellFormed(frame)
  {
    var sx, sy := tx - offsetX, ty - offsetY;
    0 <= sx < frame.width && 0 <= sy < frame.height && (sy < row || (sy == row && sx < col)) && frame.pixels[sy][sx]
  }

  /** resizeFrame: the nested copy loops of the editor build the resized frame. */
  method ResizeFrame(frame: PixelFrame, newWidth: int, newHeight: int) returns (r: PixelFrame)
    requires WellFormed(frame) && 0 <= newWidth && 0 <= newHeight
    ensures r == Resized(frame, newWidth, newHeight)
  {
    var newPixels := Grid(newWidth, newHeight, false);
    var offsetX := HalfTowardZero(newWidth - frame.width);
    var offsetY := HalfTowardZero(newHeight - frame.height);
    for y := 0 to frame.height
      invariant |newPixels| == newHeight
      invariant forall ty :: 0 <= ty < newHeight ==> |newPixels[ty]| == newWidth
      invariant forall ty, tx :: 0 <= ty < newHeight && 0 <= tx < newWidth ==>
        newPixels[ty][tx] == Copied(frame, offsetX, offsetY, y, 0, tx, ty)
    {
      for x := 0 to frame.width
        invariant |newPixels| == newHeight
        invariant forall ty :: 0 <= ty < newHeight ==> |newPixels[ty]| == newWidth
        invariant forall ty, tx :: 0 <= ty < newHeight && 0 <= tx < newWidth ==>
          newPixels[ty][tx] == Copied(frame, offsetX, offsetY, y, x, tx, ty)
      {
        var targetY := y + offsetY;
        var targetX := x + offsetX;
        if targetY >= 0 && targetY < newHeight && targetX >= 0 && targetX < newWidth {
          newPixels := newPixels[targetY := newPixels[targetY][targetX := frame.pixels[y][x]]];
        }
      }
    }
    r := PixelFrame(newPixels, newWidth, newHeight);
    SameFrame(r, Resized(frame, newWidth, newHeight));
  }

  /** Resizing to the same size gives the frame back. */
  lemma ResizeSameSize(frame: PixelFrame)
    requires WellFormed(frame)
    ensures Resized(frame, frame.width, frame.height) == frame
  {
    SameFrame(Resized(frame, frame.width, frame.height), frame);
  }

  /** A pixel of a frame, read back after growing the frame and shrinking it to its old size. */
  lemma GrowThenShrinkPixel(frame: PixelFrame, newWidth: int, newHeight: int, x: int, y: int)
    requires WellFormed(frame) && frame.width <= newWidth && frame.height <= newHeight
    requires 0 <= y < frame.height && 0 <= x < frame.width
    ensures Resized(Resized(frame, newWidth, newHeight), frame.width, frame.height).pixels[y][x] == frame.pixels[y][x]
  {
    var grown := Resized(frame, newWidth, newHeight);
    var ox, oy := HalfTowardZero(newWidth - frame.width), HalfTowardZero(newHeight - frame.height);
    HalfOfNegation(newWidth - frame.width);
    HalfOfNegation(newHeight - frame.height);
    ResizedPixel(grown, frame.width, frame.height, x, y);
    ResizedPixel(frame, newWidth, newHeight, x + ox, y + oy);
  }

  /**
   * Growing a frame and then resizing it back to its old size gives the
   * frame back, whatever the parity of the growth, because the truncated
   * halves of the growth and of the shrink cancel.
   */
  lemma GrowThenShrink(frame: PixelFrame, newWidth: int, newHeight: int)
    requires WellFormed(frame) && frame.width <= newWidth && frame.height <= newHeight
    ensures Resized(Resized(frame, newWidth, newHeight), frame.width, frame.height) == frame
  {
    var back := Resized(Resized(frame, newWidth, newHeight), frame.width, frame.height);
    forall y, x | 0 <= y < frame.height && 0 <= x < frame.width
      ensures back.pixels[y][x] == frame.pixels[y][x]
    {
      GrowThenShrinkPixel(frame, newWidth, newHeight, x, y);
    }
    SameFrame(back, frame);
  }

  // ---------------------------------------------------------------------
  // framesToBrailleArt

  predicate AllWellFormed(frames: seq<PixelFrame>)
  {
    forall k :: 0 <= k < |frames| ==> WellFormed(frames[k])
  }

  /** A well-formed frame's rows all have the first row's length, as the braille encoder needs. */
  lemma WellFormedFits(f: PixelFrame)
    requires WellFormed(f)
    ensures Fits(f.pixels)
  {
  }

  /**
   * The header line of an export: the size in braille cells and the frame
   * rate, given as the text Kotlin prints for the Float (`10.0` for 10).
   */
  function ArtHeader(charWidth: int, charHeight: int, fpsText: string): string
  {
    AsciiArtSheet.HeaderPrefix + IntToString(charWidth) + "x" + IntToString(charHeight) + ", " + fpsText + "fps"
  }

  /** The braille text of each frame, in order. */
  function FrameTexts(frames: seq<PixelFrame>): (r: seq<string>)
    requires AllWellFormed(frames)
    ensures |r| == |frames|
  {
    if |frames| == 0 then []
    else
      var last := frames[|frames| - 1];
      WellFormedFits(last);
      FrameTexts(frames[..|frames| - 1]) + [PixelsText(last.pixels)]
  }

  /**
   * The exported text: nothing for no frames; otherwise the header line, then
   * each frame's braille text followed by a line feed.
   */
  function BrailleArt(frames: seq<PixelFrame>, charWidth: int, charHeight: int, fpsText: string): string
    requires AllWellFormed(frames)
  {
    if |frames| == 0 then "" else ArtHeader(charWidth, charHeight, fpsText) + "\n" + AsciiArtSheet.Block(FrameTexts(frames))
  }

  /** The text of the first i + 1 frames is that of the first i, then frame i and a line feed. */
  lemma BlockOfOneMore(frames: seq<PixelFrame>, i: nat)
    requires AllWellFormed(frames) && i < |frames|
    ensures Fits(frames[i].pixels)
    ensures AsciiArtSheet.Block(FrameTexts(frames[..i + 1])) ==
      AsciiArtSheet.Block(FrameTexts(frames[..i])) + PixelsText(frames[i].pixels) + "\n"
  {
    var art := PixelsText(frames[i].pixels);
    assert frames[..i + 1][..i] == frames[..i];
    AsciiArtSheet.BlockAppend(FrameTexts(frames[..i]), [art]);
    assert AsciiArtSheet.Block([art]) == art + "\n";
  }

  /** framesToBrailleArt: the export built frame by frame. */
  method FramesToBrailleArt(frames: seq<PixelFrame>, charWidth: int, charHeight: int, fpsText: string) returns (r: string)
    requires AllWellFormed(frames)
    ensures r == BrailleArt(frames, charWidth, charHeight, fpsText)
  {
    if |frames| == 0 {
      return "";
    }
    // The builder holds the header line, then `body`, the frames appended so far.
    var body := "";
    for i := 0 to |frames|
      invariant body == AsciiArtSheet.Block(FrameTexts(frames[..i]))
    {
      WellFormedFits(frames[i]);
      var art := PixelsToBraille(frames[i].pixels);
      BlockOfOneMore(frames, i);
      body := body + art + "\n";
    }
    assert frames[..|frames|] == frames;
    r := ArtHeader(charWidth, charHeight, fpsText) + "\n" + body;
  }

  // ---------------------------------------------------------------------
  // the export read back by the sprite-sheet parser

  /** The export's header is the sheet format's header line followed by a further field. */
  lemma ArtHeaderShape(charWidth: nat, charHeight: nat, fpsText: string)
    ensures ArtHeader(charWidth, charHeight, fpsText) ==
      AsciiArtSheet.HeaderPrefix + (AsciiArtSheet.DimensionsText(charWidth, charHeight) + "," + (" " + fpsText + "fps"))
    ensures ArtHeader(charWidth, charHeight, fpsText) == AsciiArtSheet.HeaderText(charWidth, charHeight) + (", " + fpsText + "fps")
  {
    var p, a, b := AsciiArtSheet.HeaderPrefix, NatToString(charWidth), NatToString(charHeight);
    Regroup(p, a, b, fpsText);
  }

  lemma Regroup(p: string, a: string, b: string, f: string)
    ensures p + a + "x" + b + ", " + f + "fps" == p + (a + "x" + b + "," + (" " + f + "fps"))
    ensures p + a + "x" + b + ", " + f + "fps" == (p + (a + "x" + b)) + (", " + f + "fps")
  {
  }

  /** The export's header line names the size in cells as the sheet parser reads it, and is one line. */
  lemma ArtHeaderParses(charWidth: nat, charHeight: nat, fpsText: string)
    requires charWidth < AsciiArtSheet.UsizeBound && charHeight < AsciiArtSheet.UsizeBound
    requires '\n' !in fpsText
    ensures AsciiArtSheet.ParseHeader(ArtHeader(charWidth, charHeight, fpsText)) == Success((charWidth, charHeight))
    ensures AsciiArtSheet.IsLine(ArtHeader(charWidth, charHeight, fpsText))
  {
    ArtHeaderReads(charWidth, charHeight, fpsText);
    ArtHeaderIsLine(charWidth, charHeight, fpsText);
  }

  lemma ArtHeaderReads(charWidth: nat, charHeight: nat, fpsText: string)
    requires charWidth < AsciiArtSheet.UsizeBound && charHeight < AsciiArtSheet.UsizeBound
    ensures AsciiArtSheet.ParseHeader(ArtHeader(charWidth, charHeight, fpsText)) == Success((charWidth, charHeight))
  {
    var d := AsciiArtSheet.DimensionsText(charWidth, charHeight);
    var extra := " " + fpsText + "fps";
    var rest := d + "," + extra;
    var header := ArtHeader(charWidth, charHeight, fpsText);
    ArtHeaderShape(charWidth, charHeight, fpsText);
    AsciiArtSheet.DimensionsShape(charWidth, charHeight);
    assert rest[0] == d[0];
    StripPrefix(AsciiArtSheet.HeaderPrefix, rest);
    assert header[..|AsciiArtSheet.HeaderPrefix|] == AsciiArtSheet.HeaderPrefix;
    TrimUnchanged(rest);
    AsciiArtSheet.DimensionsRoundTrip(charWidth, charHeight, extra);
  }

  lemma ArtHeaderIsLine(charWidth: nat, charHeight: nat, fpsText: string)
    requires '\n' !in fpsText
    ensures AsciiArtSheet.IsLine(ArtHeader(charWidth, charHeight, fpsText))
  {
    var header := ArtHeader(charWidth, charHeight, fpsText);
    var tail := ", " + fpsText + "fps";
    ArtHeaderShape(charWidth, charHeight, fpsText);
    AsciiArtSheet.HeaderIsLine(charWidth, charHeight);
    FpsTail(fpsText);
    assert header[|header| - 1] == tail[|tail| - 1];
  }

  /** The content-file parser reads the export header's rate back from a plain decimal fps text. */
  lemma ArtHeaderRate(charWidth: nat, charHeight: nat, fpsText: string, fps: real)
    requires PlainDecimal(fpsText) && ParseDecimal(fpsText) == Some(fps)
    ensures ContentFile.FpsFromHeader(ArtHeader(charWidth, charHeight, fpsText)) == fps
  {
    var d := AsciiArtSheet.DimensionsText(charWidth, charHeight);
    RateRegroup(AsciiArtSheet.HeaderPrefix, NatToString(charWidth), NatToString(charHeight), fpsText);
    AsciiArtSheet.DimensionsShape(charWidth, charHeight);
    ContentFile.FpsOfHeaderText(d, fpsText, fps);
  }

  lemma RateRegroup(p: string, a: string, b: string, f: string)
    ensures p + a + "x" + b + ", " + f + "fps" == p + (a + "x" + b + ", " + f + "fps")
  {
  }

  /** The first line of a header followed by any text is the header, naming the rate of its fps text. */
  lemma HeaderLineRate(charWidth: nat, charHeight: nat, fpsText: string, fps: real, body: string)
    requires PlainDecimal(fpsText) && ParseDecimal(fpsText) == Some(fps)
    ensures ContentFile.FpsFromHeader(Split(ArtHeader(charWidth, charHeight, fpsText) + "\n" + body, '\n')[0]) == fps
  {
    var header := ArtHeader(charWidth, charHeight, fpsText);
    assert '\n' !in fpsText by {
      forall i | 0 <= i < |fpsText| ensures fpsText[i] != '\n' {
        assert IsDigit(fpsText[i]) || fpsText[i] == '.';
      }
    }
    ArtHeaderIsLine(charWidth, charHeight, fpsText);
    assert header + "\n" + body == header + ['\n'] + body;
    SplitAt(header, body, '\n');
    ArtHeaderRate(charWidth, charHeight, fpsText, fps);
  }

  /** The first line of a non-empty export names the rate that a plain decimal fps text reads as. */
  lemma ExportRate(frames: seq<PixelFrame>, charWidth: nat, charHeight: nat, fpsText: string, fps: real)
    requires AllWellFormed(frames) && |frames| > 0
    requires PlainDecimal(fpsText) && ParseDecimal(fpsText) == Some(fps)
    ensures ContentFile.FpsFromHeader(Split(BrailleArt(frames, charWidth, charHeight, fpsText), '\n')[0]) == fps
  {
    HeaderLineRate(charWidth, charHeight, fpsText, fps, AsciiArtSheet.Block(FrameTexts(frames)));
  }

  /** The character rows of a frame of whole cells form one group of the sheet format. */
  lemma RowsAreGroup(pixels: seq<seq<bool>>, charWidth: nat, charHeight: nat)
    requires charWidth > 0 && charHeight > 0 && Shaped(pixels, charWidth, charHeight)
    ensures Fits(pixels)
    ensures AsciiArtSheet.IsGroup(EncodedLines(pixels, charWidth, charHeight), charHeight)
    ensures forall j :: 0 <= j < charHeight ==> AsciiArtSheet.IsLine(EncodedLines(pixels, charWidth, charHeight)[j])
    ensures AsciiArtSheet.FrameOf(EncodedLines(pixels, charWidth, charHeight)) == PixelsText(pixels)
  {
    WholeCells(pixels, charWidth, charHeight);
    var lines := EncodedLines(pixels, charWidth, charHeight);
    EncodedLinesArePatterns(pixels, charWidth, charHeight);
    forall j | 0 <= j < charHeight
      ensures AsciiArtSheet.IsLine(lines[j]) && |lines[j]| == charWidth
    {
      assert forall cx :: 0 <= cx < |lines[j]| ==> IsPattern(lines[j][cx]);
    }
    var last := lines[charHeight - 1];
    PatternNotSpace(last[|last| - 1]);
  }

  /** Frames of charHeight x charWidth cells, all of them. */
  predicate AllShaped(frames: seq<PixelFrame>, charWidth: nat, charHeight: nat)
  {
    forall k :: 0 <= k < |frames| ==> WellFormed(frames[k]) && Shaped(frames[k].pixels, charWidth, charHeight)
  }

  /** The character rows of every frame. */
  function FrameRows(frames: seq<PixelFrame>, charWidth: nat, charHeight: nat): (r: seq<seq<string>>)
    requires AllShaped(frames, charWidth, charHeight)
    ensures |r| == |frames|
  {
    seq(|frames|, k requires 0 <= k < |frames| && Fits(frames[k].pixels) => EncodedLines(frames[k].pixels, charWidth, charHeight))
  }

  lemma FrameRowsAt(frames: seq<PixelFrame>, charWidth: nat, charHeight: nat, k: nat)
    requires AllShaped(frames, charWidth, charHeight) && k < |frames|
    ensures Fits(frames[k].pixels)
    ensures FrameRows(frames, charWidth, charHeight)[k] == EncodedLines(frames[k].pixels, charWidth, charHeight)
  {
    WellFormedFits(frames[k]);
  }

  lemma {:induction false} FrameTextsAt(frames: seq<PixelFrame>, k: nat)
    requires AllWellFormed(frames) && k < |frames|
    ensures Fits(frames[k].pixels)
    ensures FrameTexts(frames)[k] == PixelsText(frames[k].pixels)
  {
    var n := |frames| - 1;
    WellFormedFits(frames[k]);
    WellFormedFits(frames[n]);
    var texts := FrameTexts(frames);
    assert texts == FrameTexts(frames[..n]) + [PixelsText(frames[n].pixels)];
    if k < n {
      assert frames[..n][k] == frames[k];
      FrameTextsAt(frames[..n], k);
      assert texts[k] == FrameTexts(frames[..n])[k];
    }
  }

  lemma {:induction false} FramesOfAt(groups: seq<seq<string>>, k: nat)
    requires k < |groups|
    ensures AsciiArtSheet.FramesOf(groups)[k] == AsciiArtSheet.FrameOf(groups[k])
  {
    if k > 0 {
      FramesOfAt(groups[1..], k - 1);
    }
  }

  /** The rows of exported frames are groups of whole lines, and their frames are the frames' braille texts. */
  lemma ExportGroups(frames: seq<PixelFrame>, charWidth: nat, charHeight: nat)
    requires charWidth > 0 && charHeight > 0 && AllShaped(frames, charWidth, charHeight)
    ensures var groups := FrameRows(frames, charWidth, charHeight);
      && (forall k :: 0 <= k < |groups| ==> AsciiArtSheet.IsGroup(groups[k], charHeight))
      && (forall k, j :: 0 <= k < |groups| && 0 <= j < |groups[k]| ==> AsciiArtSheet.IsLine(groups[k][j]))
      && AsciiArtSheet.FramesOf(groups) == FrameTexts(frames)
  {
    var groups := FrameRows(frames, charWidth, charHeight);
    forall k | 0 <= k < |groups|
      ensures AsciiArtSheet.IsGroup(groups[k], charHeight)
      ensures forall j :: 0 <= j < |groups[k]| ==> AsciiArtSheet.IsLine(groups[k][j])
      ensures AsciiArtSheet.FramesOf(groups)[k] == FrameTexts(frames)[k]
    {
      FrameRowsAt(frames, charWidth, charHeight, k);
      FrameTextsAt(frames, k);
      RowsAreGroup(frames[k].pixels, charWidth, charHeight);
      FramesOfAt(groups, k);
    }
  }

  /** The lines of an export: its header, then every character row of every frame. */
  lemma ExportLines(frames: seq<PixelFrame>, charWidth: nat, charHeight: nat, fpsText: string)
    requires |frames| > 0 && charWidth > 0 && charHeight > 0 && AllShaped(frames, charWidth, charHeight)
    requires charWidth < AsciiArtSheet.UsizeBound && charHeight < AsciiArtSheet.UsizeBound && '\n' !in fpsText
    ensures Lines(BrailleArt(frames, charWidth, charHeight, fpsText)) ==
      [ArtHeader(charWidth, charHeight, fpsText)] + AsciiArtSheet.Flatten(FrameRows(frames, charWidth, charHeight))
  {
    var groups := FrameRows(frames, charWidth, charHeight);
    var header := ArtHeader(charWidth, charHeight, fpsText);
    ExportGroups(frames, charWidth, charHeight);
    assert forall k :: 0 <= k < |groups| ==> |groups[k]| > 0 by {
      forall k | 0 <= k < |groups| ensures |groups[k]| > 0 {
        assert AsciiArtSheet.IsGroup(groups[k], charHeight);
      }
    }
    AsciiArtSheet.BlockOfFrames(groups);
    ArtHeaderParses(charWidth, charHeight, fpsText);
    AsciiArtSheet.LinesCons(header, AsciiArtSheet.Block(AsciiArtSheet.Flatten(groups)));
    AsciiArtSheet.FlattenLines(groups);
    AsciiArtSheet.LinesOfBlock(AsciiArtSheet.Flatten(groups));
  }

  /**
   * The sprite sheet the editor exports is read back by the sheet parser
   * with the size in cells from its header and one frame per exported
   * frame, and decoding each of those frames gives back the frame's pixels.
   */
  lemma ExportReadsBack(frames: seq<PixelFrame>, charWidth: nat, charHeight: nat, fpsText: string)
    requires |frames| > 0 && charWidth > 0 && charHeight > 0 && AllShaped(frames, charWidth, charHeight)
    requires charWidth < AsciiArtSheet.UsizeBound && charHeight < AsciiArtSheet.UsizeBound && '\n' !in fpsText
    ensures AsciiArtSheet.ParseSheet(BrailleArt(frames, charWidth, charHeight, fpsText))
      == Success(AsciiArtSheet.Sheet(charWidth, charHeight, FrameTexts(frames)))
    ensures forall k :: 0 <= k < |frames| ==>
      BrailleFrames(FrameTexts(frames)[k], charWidth, charHeight) == [frames[k].pixels]
  {
    var groups := FrameRows(frames, charWidth, charHeight);
    ExportGroups(frames, charWidth, charHeight);
    ExportLines(frames, charWidth, charHeight, fpsText);
    ArtHeaderParses(charWidth, charHeight, fpsText);
    AsciiArtSheet.CutWholeGroups(groups, charHeight);
    var lines := Lines(BrailleArt(frames, charWidth, charHeight, fpsText));
    assert lines[1..] == AsciiArtSheet.Flatten(groups);
    forall k | 0 <= k < |frames|
      ensures BrailleFrames(FrameTexts(frames)[k], charWidth, charHeight) == [frames[k].pixels]
    {
      FrameTextsAt(frames, k);
      RoundTrip(frames[k].pixels, charWidth, charHeight);
    }
  }

  /**
   * The export is a sprite sheet whose header has the fps field as its tail
   * and whose frames are the groups of character rows returned (the frame rows).
   */
  lemma ExportIsSheet(frames: seq<PixelFrame>, charWidth: nat, charHeight: nat, fpsText: string)
    returns (groups: seq<seq<string>>)
    requires |frames| > 0 && charWidth > 0 && charHeight > 0
    requires AllShaped(frames, charWidth, charHeight)
    ensures |groups| > 0
    ensures forall k :: 0 <= k < |groups| ==> AsciiArtSheet.IsGroup(groups[k], charHeight)
    ensures forall k, j :: 0 <= k < |groups| && 0 <= j < |groups[k]| ==> AsciiArtSheet.IsLine(groups[k][j])
    ensures AsciiArtSheet.FramesOf(groups) == FrameTexts(frames)
    ensures BrailleArt(frames, charWidth, charHeight, fpsText) ==
      AsciiArtSheet.HeaderText(charWidth, charHeight) + (", " + fpsText + "fps") + "\n" + AsciiArtSheet.Block(AsciiArtSheet.FramesOf(groups))
  {
    groups := FrameRows(frames, charWidth, charHeight);
    ExportGroups(frames, charWidth, charHeight);
    ArtHeaderShape(charWidth, charHeight, fpsText);
  }

  /** The fps field after the size in an exported header: one line, starting with a comma and ending in "s". */
  lemma FpsTail(fpsText: string)
    requires '\n' !in fpsText
    ensures var tail := ", " + fpsText + "fps";
      '\n' !in tail && |tail| > 0 && tail[0] == ',' && tail[|tail| - 1] == 's'
  {
    assert '\n' !in ", " && '\n' !in "fps";
  }
}
