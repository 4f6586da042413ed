/**
 * The state of the Kotlin pixel editor: the canvas size and frame rate the
 * user picked, the list of frames, which of them is selected, whether the
 * preview is shown and the last validation message.
 */
module KtPixelEditorViewModel {
  import opened Wrappers
  import opened KtPixelEditor
  import AsciiArtSheet
  import KtBrailleConverter
  import ContentFile
  import opened Text

  /** Int.coerceIn: the value, moved into [lo, hi] when it lies outside. */
  function CoerceIn(v: int, lo: int, hi: int): (r: int)
    requires lo <= hi
    ensures lo <= r <= hi
    ensures lo <= v <= hi ==> r == v
    ensures v < lo ==> r == lo
    ensures v > hi ==> r == hi
  {
    if v < lo then lo else if v > hi then hi else v
  }

  /**
   * Float.coerceIn, on reals. The frame rate is a Float while the canvas
   * sizes are Ints, so the editor needs both this and CoerceIn.
   */
  function CoerceInReal(v: real, lo: real, hi: real): (r: real)
    requires lo <= hi
    ensures lo <= r <= hi
    ensures lo <= v <= hi ==> r == v
    ensures v < lo ==> r == lo
    ensures v > hi ==> r == hi
  {
    if v < lo then lo else if v > hi then hi else v
  }

  /** The message a validation leaves behind: none when valid. */
  function ErrorOf(r: ValidationResult): (e: Option<string>)
    ensures e.None? <==> r == Valid
    ensures r.Invalid? ==> e == Some(r.message)
  {
    match r
    case Valid => None
    case Invalid(message) => Some(message)
  }

  /** filterIndexed { i, _ -> i != index }: the list without its element at `index`. */
  function RemoveAt<T>(s: seq<T>, index: nat): (r: seq<T>)
    requires index < |s|
    ensures |r| == |s| - 1
    ensures forall k :: 0 <= k < index ==> r[k] == s[k]
    ensures forall k :: index <= k < |r| ==> r[k] == s[k + 1]
  {
    s[..index] + s[index + 1..]
  }

  /** The selection after deleting frame `index`, given the new frame count. */
  function IndexAfterDelete(current: int, index: int, newSize: int): int
  {
    if current >= newSize then newSize - 1
    else if current > index then current - 1
    else current
  }

  /**
   * Deleting a frame other than the selected one keeps the same frame
   * selected; deleting the selected frame selects the frame that followed
   * it, or the new last frame when it was the last. The selection stays in
   * range.
   */
  lemma DeleteKeepsSelection<T>(frames: seq<T>, current: int, index: int)
    requires 1 < |frames| && 0 <= index < |frames| && 0 <= current < |frames|
    ensures var rest, c := RemoveAt(frames, index), IndexAfterDelete(current, index, |frames| - 1);
      && 0 <= c < |rest|
      && (current != index ==> rest[c] == frames[current])
      && (current == index < |rest| ==> rest[c] == frames[index + 1])
      && (current == index == |rest| ==> c == |rest| - 1)
  {
  }

  /** The frames, each resized to the canvas. */
  function ResizedAll(frames: seq<PixelFrame>, width: int, height: int): (r: seq<PixelFrame>)
    requires AllWellFormed(frames) && 0 <= width && 0 <= height
    ensures |r| == |frames| && AllWellFormed(r)
    ensures forall k :: 0 <= k < |r| ==> r[k].width == width && r[k].height == height
  {
    seq(|frames|, k requires 0 <= k < |frames| => Resized(frames[k], width, height))
  }

  /**
   * After a successful resize every frame has the canvas size, so the export
   * is a sprite sheet that reads back frame by frame.
   */
  lemma ResizedFramesExport(frames: seq<PixelFrame>, width: int, height: int, fpsText: string)
    requires AllWellFormed(frames) && |frames| > 0 && ValidateDimensions(width, height) == Valid
    requires '\n' !in fpsText
    ensures var resized := ResizedAll(frames, width, height);
      AsciiArtSheet.ParseSheet(BrailleArt(resized, width / 2, height / 4, fpsText))
        == Success(AsciiArtSheet.Sheet(width / 2, height / 4, FrameTexts(resized)))
  {
    var resized := ResizedAll(frames, width, height);
    assert AllShaped(resized, width / 2, height / 4);
    ExportReadsBack(resized, width / 2, height / 4, fpsText);
  }

  const DefaultWidth := 64
  const DefaultHeight := 40
  const DefaultFps := 10.0

  class PixelEditorViewModel {
    var canvasWidth: int
    var canvasHeight: int
    var fps: real
    var frames: seq<PixelFrame>
    var currentFrameIndex: int
    var showPreview: bool
    var validationError: Option<string>

    /** Sizes and rate inside their clamps, at least one frame, a frame selected, every frame well formed. */
    predicate Valid()
      reads this
    {
      && 2 <= canvasWidth <= MaxSide && 4 <= canvasHeight <= MaxSide
      && 1.0 <= fps <= 30.0
      && 0 <= currentFrameIndex < |frames|
      && AllWellFormed(frames)
    }

    /** Every frame has the canvas size. */
    predicate CanvasSized()
      reads this
    {
      forall k :: 0 <= k < |frames| ==> frames[k].width == canvasWidth && frames[k].height == canvasHeight
    }

    /** The defaults, then init's addFrame: one blank 64x40 frame, selected. */
    constructor ()
      ensures Valid() && CanvasSized()
      ensures canvasWidth == DefaultWidth && canvasHeight == DefaultHeight && fps == DefaultFps
      ensures frames == [CreateEmptyFrame(DefaultWidth, DefaultHeight)] && currentFrameIndex == 0
      ensures !showPreview && validationError == None
    {
      canvasWidth := DefaultWidth;
      canvasHeight := DefaultHeight;
      fps := DefaultFps;
      frames := [];
      currentFrameIndex := -1;
      showPreview := false;
      validationError := None;
      new;
      AddFrame();
    }

    /** currentFrame: the selected frame, if the selection is in range. */
    function CurrentFrame(): (f: Option<PixelFrame>)
      reads this
      ensures f.Some? <==> 0 <= currentFrameIndex < |frames|
      ensures f.Some? ==> f.value == frames[currentFrameIndex]
      ensures Valid() ==> f.Some?
    {
      if 0 <= currentFrameIndex < |frames| then Some(frames[currentFrameIndex]) else None
    }

    /** charWidth: the canvas width in braille cells. */
    function CharWidth(): (w: int)
      reads this
      requires Valid()
      ensures 1 <= w <= 64 && 2 * w <= canvasWidth < 2 * w + 2
    {
      canvasWidth / 2
    }

    /** charHeight: the canvas height in braille cells. */
    function CharHeight(): (h: int)
      reads this
      requires Valid()
      ensures 1 <= h <= 32 && 4 * h <= canvasHeight < 4 * h + 4
    {
      canvasHeight / 4
    }

    /** updateCanvasWidth: the width clamped to [2, 128], and the message of the new size's validation. */
    method UpdateCanvasWidth(width: int)
      requires Valid()
      modifies this
      ensures Valid()
      ensures canvasWidth == CoerceIn(width, 2, MaxSide)
      ensures validationError == ErrorOf(ValidateDimensions(canvasWidth, canvasHeight))
      ensures canvasHeight == old(canvasHeight) && fps == old(fps) && frames == old(frames)
      ensures currentFrameIndex == old(currentFrameIndex) && showPreview == old(showPreview)
    {
      canvasWidth := CoerceIn(width, 2, MaxSide);
      ValidateCurrentDimensions();
    }

    /** updateCanvasHeight: the height clamped to [4, 128], and the message of the new size's validation. */
    method UpdateCanvasHeight(height: int)
      requires Valid()
      modifies this
      ensures Valid()
      ensures canvasHeight == CoerceIn(height, 4, MaxSide)
      ensures validationError == ErrorOf(ValidateDimensions(canvasWidth, canvasHeight))
      ensures canvasWidth == old(canvasWidth) && fps == old(fps) && frames == old(frames)
      ensures currentFrameIndex == old(currentFrameIndex) && showPreview == old(showPreview)
    {
      canvasHeight := CoerceIn(height, 4, MaxSide);
      ValidateCurrentDimensions();
    }

    /** updateFps: the rate clamped to [1, 30]; a clamped rate always validates, so the message is cleared. */
    method UpdateFps(newFps: real)
      requires Valid()
      modifies this
      ensures Valid()
      ensures fps == CoerceInReal(newFps, 1.0, 30.0)
      ensures validationError == None
      ensures canvasWidth == old(canvasWidth) && canvasHeight == old(canvasHeight) && frames == old(frames)
      ensures currentFrameIndex == old(currentFrameIndex) && showPreview == old(showPreview)
    {
      fps := CoerceInReal(newFps, 1.0, 30.0);
      validationError := ErrorOf(ValidateFps(fps));
    }

    /**
     * resizeCanvas: with a valid canvas size every frame is resized to it and
     * the message is cleared; otherwise only the message is set.
     */
    method ResizeCanvas()
      requires Valid()
      modifies this
      ensures Valid()
      ensures canvasWidth == old(canvasWidth) && canvasHeight == old(canvasHeight) && fps == old(fps)
      ensures currentFrameIndex == old(currentFrameIndex) && showPreview == old(showPreview)
      ensures validationError == ErrorOf(ValidateDimensions(canvasWidth, canvasHeight))
      ensures ValidateDimensions(canvasWidth, canvasHeight).Valid? ==>
        frames == ResizedAll(old(frames), canvasWidth, canvasHeight) && CanvasSized()
      ensures ValidateDimensions(canvasWidth, canvasHeight).Invalid? ==> frames == old(frames)
    {
      var result := ValidateDimensions(canvasWidth, canvasHeight);
      if result.Valid? {
        var before, width, height := frames, canvasWidth, canvasHeight;
        validationError := None;
        var resized: seq<PixelFrame> := [];
        for i := 0 to |before|
          modifies {}
          invariant |resized| == i
          invariant forall k :: 0 <= k < i ==> resized[k] == Resized(before[k], width, height)
        {
          var frame := ResizeFrame(before[i], width, height);
          resized := resized + [frame];
        }
        assert resized == ResizedAll(before, width, height);
        frames := resized;
      } else {
        validationError := Some(result.message);
      }
    }

    /** addFrame: a blank canvas-sized frame appended and selected. */
    method AddFrame()
      requires 2 <= canvasWidth <= MaxSide && 4 <= canvasHeight <= MaxSide && 1.0 <= fps <= 30.0
      requires AllWellFormed(frames)
      modifies this
      ensures Valid()
      ensures frames == old(frames) + [CreateEmptyFrame(canvasWidth, canvasHeight)]
      ensures currentFrameIndex == |old(frames)|
      ensures old(CanvasSized()) ==> CanvasSized()
      ensures canvasWidth == old(canvasWidth) && canvasHeight == old(canvasHeight) && fps == old(fps)
      ensures showPreview == old(showPreview) && validationError == old(validationError)
    {
      var newFrame := CreateEmptyFrame(canvasWidth, canvasHeight);
      frames := frames + [newFrame];
      currentFrameIndex := |frames| - 1;
    }

    /**
     * deleteFrame: nothing happens when there is only one frame or the index
     * is out of range; otherwise the frame goes and the selection follows.
     */
    method DeleteFrame(index: int)
      requires Valid()
      modifies this
      ensures Valid()
      ensures |old(frames)| <= 1 || index < 0 || index >= |old(frames)| ==>
        frames == old(frames) && currentFrameIndex == old(currentFrameIndex)
      ensures 1 < |old(frames)| && 0 <= index < |old(frames)| ==>
        frames == RemoveAt(old(frames), index) &&
        currentFrameIndex == IndexAfterDelete(old(currentFrameIndex), index, |frames|)
      ensures old(CanvasSized()) ==> CanvasSized()
      ensures canvasWidth == old(canvasWidth) && canvasHeight == old(canvasHeight) && fps == old(fps)
      ensures showPreview == old(showPreview) && validationError == old(validationError)
    {
      if |frames| <= 1 || index < 0 || index >= |frames| {
        return;
      }
      DeleteKeepsSelection(frames, currentFrameIndex, index);
      frames := RemoveAt(frames, index);
      if currentFrameIndex >= |frames| {
        currentFrameIndex := |frames| - 1;
      } else if currentFrameIndex > index {
        currentFrameIndex := currentFrameIndex - 1;
      }
    }

    /** selectFrame: selects `index` when it names a frame, and otherwise does nothing. */
    method SelectFrame(index: int)
      requires Valid()
      modifies this
      ensures Valid()
      ensures currentFrameIndex == (if 0 <= index < |frames| then index else old(currentFrameIndex))
      ensures frames == old(frames) && canvasWidth == old(canvasWidth) && canvasHeight == old(canvasHeight)
      ensures fps == old(fps) && showPreview == old(showPreview) && validationError == old(validationError)
    {
      if 0 <= index < |frames| {
        currentFrameIndex := index;
      }
    }

    /** setPixel: the selected frame with one pixel set; no other frame changes. */
    method SetPixel(x: int, y: int, value: bool)
      requires Valid()
      modifies this
      ensures Valid()
      ensures frames == old(frames[currentFrameIndex := KtPixelEditor.SetPixel(frames[currentFrameIndex], x, y, value)])
      ensures old(CanvasSized()) ==> CanvasSized()
      ensures currentFrameIndex == old(currentFrameIndex) && canvasWidth == old(canvasWidth)
      ensures canvasHeight == old(canvasHeight) && fps == old(fps)
      ensures showPreview == old(showPreview) && validationError == old(validationError)
    {
      match CurrentFrame()
      case Some(frame) =>
        var updated := KtPixelEditor.SetPixel(frame, x, y, value);
        frames := frames[currentFrameIndex := updated];
      case None =>
    }

    /** clearCurrentFrame: the selected frame cleared; no other frame changes. */
    method ClearCurrentFrame()
      requires Valid()
      modifies this
      ensures Valid()
      ensures frames == old(frames[currentFrameIndex := ClearFrame(frames[currentFrameIndex])])
      ensures old(CanvasSized()) ==> CanvasSized()
      ensures currentFrameIndex == old(currentFrameIndex) && canvasWidth == old(canvasWidth)
      ensures canvasHeight == old(canvasHeight) && fps == old(fps)
      ensures showPreview == old(showPreview) && validationError == old(validationError)
    {
      match CurrentFrame()
      case Some(frame) =>
        frames := frames[currentFrameIndex := ClearFrame(frame)];
      case None =>
    }

    /** fillCurrentFrame: the selected frame filled; no other frame changes. */
    method FillCurrentFrame()
      requires Valid()
      modifies this
      ensures Valid()
      ensures frames == old(frames[currentFrameIndex := FillFrame(frames[currentFrameIndex])])
      ensures old(CanvasSized()) ==> CanvasSized()
      ensures currentFrameIndex == old(currentFrameIndex) && canvasWidth == old(canvasWidth)
      ensures canvasHeight == old(canvasHeight) && fps == old(fps)
      ensures showPreview == old(showPreview) && validationError == old(validationError)
    {
      match CurrentFrame()
      case Some(frame) =>
        frames := frames[currentFrameIndex := FillFrame(frame)];
      case None =>
    }

    /** togglePreview: flips whether the preview is shown. */
    method TogglePreview()
      modifies this
      ensures showPreview == !old(showPreview)
      ensures frames == old(frames) && currentFrameIndex == old(currentFrameIndex)
      ensures canvasWidth == old(canvasWidth) && canvasHeight == old(canvasHeight) && fps == old(fps)
      ensures validationError == old(validationError)
    {
      showPreview := !showPreview;
    }

    /**
     * exportToText: the frames as a sprite sheet sized in cells; `fpsText` is
     * the text Kotlin's `Float.toString` prints for `fps`. When that text is
     * a plain decimal reading back as `fps` (as it is for every rate in
     * [1, 30]), the header's first line names the editor's rate. When every
     * frame has the size of a valid canvas, the sheet parser reads the
     * frames back.
     */
    method ExportToText(fpsText: string) returns (r: string)
      requires Valid()
      ensures r == BrailleArt(frames, CharWidth(), CharHeight(), fpsText)
      ensures PlainDecimal(fpsText) && ParseDecimal(fpsText) == Some(fps) ==>
        ContentFile.FpsFromHeader(Split(r, '\n')[0]) == fps
      ensures CanvasSized() && ValidateDimensions(canvasWidth, canvasHeight).Valid? && '\n' !in fpsText ==>
        AsciiArtSheet.ParseSheet(r) == Success(AsciiArtSheet.Sheet(CharWidth(), CharHeight(), FrameTexts(frames)))
    {
      r := FramesToBrailleArt(frames, CharWidth(), CharHeight(), fpsText);
      if PlainDecimal(fpsText) && ParseDecimal(fpsText) == Some(fps) {
        ExportRate(frames, CharWidth(), CharHeight(), fpsText, fps);
      }
      if CanvasSized() && ValidateDimensions(canvasWidth, canvasHeight).Valid? && '\n' !in fpsText {
        assert AllShaped(frames, CharWidth(), CharHeight());
        ExportReadsBack(frames, CharWidth(), CharHeight(), fpsText);
      }
    }

    /** validateCurrentDimensions: the message of the canvas size's validation. */
    method ValidateCurrentDimensions()
      modifies this
      ensures validationError == ErrorOf(ValidateDimensions(canvasWidth, canvasHeight))
      ensures canvasWidth == old(canvasWidth) && canvasHeight == old(canvasHeight) && fps == old(fps)
      ensures frames == old(frames) && currentFrameIndex == old(currentFrameIndex) && showPreview == old(showPreview)
    {
      validationError := ErrorOf(ValidateDimensions(canvasWidth, canvasHeight));
    }
  }
}
