/**
 * The sprite-sheet text format: a header line `Ascii Art Animation, WxH`
 * (optionally followed by more comma-separated fields) and then the frames,
 * each `H` lines of braille art, one after another.
 */
module AsciiArtSheet {
  import opened Wrappers
  import opened Text

  const HeaderPrefix := "Ascii Art Animation, "
  /** Widths and heights are `usize` values. */
  const UsizeBound := 0x1_0000_0000_0000_0000

  /** A sheet's dimensions and frames, as values. */
  datatype Sheet = Sheet(width: nat, height: nat, frames: seq<string>)

  datatype SheetError =
    | EmptyFile | InvalidHeader | InvalidDimensions | InvalidDimensionsFormat | InvalidWidth | InvalidHeight

  function Message(e: SheetError): string
  {
    match e
    case EmptyFile => "Empty file"
    case InvalidHeader => "Invalid header"
    case InvalidDimensions => "Invalid dimensions in header"
    case InvalidDimensionsFormat => "Invalid dimensions format, expected WIDTHxHEIGHT"
    case InvalidWidth => "Invalid width"
    case InvalidHeight => "Invalid height"
  }

  /** A sheet whose frames the methods append to in place. */
  class AsciiArtSheet {
    var width: nat
    var height: nat
    var frames: seq<string>

    /** new: the given dimensions and no frames. */
    constructor (width: nat, height: nat)
      ensures this.width == width && this.height == height && frames == []
      ensures FrameCount() == 0
    {
      this.width := width;
      this.height := height;
      frames := [];
    }

    function FrameCount(): nat
      reads this
    {
      |frames|
    }

    /** add_frame: one more frame at the end; nothing else changes. */
    method AddFrame(frame: string)
      modifies this
      ensures frames == old(frames) + [frame]
      ensures FrameCount() == old(FrameCount()) + 1
      ensures width == old(width) && height == old(height)
    {
      frames := frames + [frame];
    }

    function Value(): Sheet
      reads this
    {
      Sheet(width, height, frames)
    }
  }

  // ---------------------------------------------------------------------
  // header

  /** The width and height of a header line, or why it has none. */
  function ParseHeader(header: string): Result<(nat, nat), SheetError>
  {
    if !StartsWith(header, HeaderPrefix) then Failure(InvalidHeader)
    else ParseDimensions(Trim(TrimStartMatches(header, HeaderPrefix)))
  }

  /** The `WxH` in the first comma-separated field of the text after the prefix. */
  function ParseDimensions(after: string): (r: Result<(nat, nat), SheetError>)
    ensures r.Success? ==> r.value.0 < UsizeBound && r.value.1 < UsizeBound
  {
    var parts := Split(after, ',');
    if |parts| == 0 then Failure(InvalidDimensions)
    else
      var dims := Split(Trim(parts[0]), 'x');
      if |dims| != 2 then Failure(InvalidDimensionsFormat)
      else
        match ParseUnsigned(dims[0], UsizeBound)
        case None => Failure(InvalidWidth)
        case Some(w) =>
          match ParseUnsigned(dims[1], UsizeBound)
          case None => Failure(InvalidHeight)
          case Some(h) => Success((w, h))
  }

  /** The dimension text `WxH`. */
  function DimensionsText(w: nat, h: nat): string
  {
    NatToString(w) + "x" + NatToString(h)
  }

  /** The dimension text is the two numbers around an `x`, with no comma and nothing to trim. */
  lemma DimensionsShape(w: nat, h: nat)
    ensures var d := DimensionsText(w, h);
      && d == NatToString(w) + ['x'] + NatToString(h)
      && ',' !in d && Trim(d) == d && IsDigit(d[0])
  {
    var ws := NatToString(w);
    var hs := NatToString(h);
    var d := DimensionsText(w, h);
    DigitsExclude(ws, ',');
    DigitsExclude(hs, ',');
    assert d == ws + ['x'] + hs;
    assert d[0] == ws[0] && d[|d| - 1] == hs[|hs| - 1];
    assert IsDigit(d[0]) && IsDigit(d[|d| - 1]);
    TrimUnchanged(d);
  }

  /** The dimension text splits at its `x` into the two numbers. */
  lemma DimensionsSplit(w: nat, h: nat)
    ensures Split(DimensionsText(w, h), 'x') == [NatToString(w), NatToString(h)]
  {
    DimensionsShape(w, h);
    DigitsExclude(NatToString(w), 'x');
    DigitsExclude(NatToString(h), 'x');
    SplitAt(NatToString(w), NatToString(h), 'x');
    SplitNone(NatToString(h), 'x');
  }

  /** Text whose first comma-separated field is `WxH` names the dimensions (W, H). */
  lemma DimensionsOfFirstField(w: nat, h: nat, after: string)
    requires w < UsizeBound && h < UsizeBound
    requires |Split(after, ',')| > 0 && Split(after, ',')[0] == DimensionsText(w, h)
    ensures ParseDimensions(after) == Success((w, h))
  {
    DimensionsShape(w, h);
    DimensionsSplit(w, h);
    NatToStringValue(w);
    NatToStringValue(h);
  }

  /** `WxH`, and `WxH` followed by further comma-separated fields, read back as (W, H). */
  lemma DimensionsRoundTrip(w: nat, h: nat, extra: string)
    requires w < UsizeBound && h < UsizeBound
    ensures ParseDimensions(DimensionsText(w, h)) == Success((w, h))
    ensures ParseDimensions(DimensionsText(w, h) + "," + extra) == Success((w, h))
  {
    var d := DimensionsText(w, h);
    DimensionsShape(w, h);
    SplitNone(d, ',');
    DimensionsOfFirstField(w, h, d);
    assert d + "," + extra == d + [','] + extra;
    SplitAt(d, extra, ',');
    DimensionsOfFirstField(w, h, d + "," + extra);
  }

  /** The header line `Ascii Art Animation, WxH` that Display writes. */
  function HeaderText(w: nat, h: nat): string
  {
    HeaderPrefix + DimensionsText(w, h)
  }

  lemma HeaderRoundTrip(w: nat, h: nat)
    requires w < UsizeBound && h < UsizeBound
    ensures ParseHeader(HeaderText(w, h)) == Success((w, h))
  {
    var d := DimensionsText(w, h);
    DimensionsShape(w, h);
    assert HeaderText(w, h)[..|HeaderPrefix|] == HeaderPrefix;
    StripPrefix(HeaderPrefix, d);
    DimensionsRoundTrip(w, h, "");
  }

  // ---------------------------------------------------------------------
  // frames

  /** Lines each followed by a line feed, as the parser accumulates them. */
  function Block(lines: seq<string>): string
  {
    if |lines| == 0 then "" else lines[0] + "\n" + Block(lines[1..])
  }

  lemma {:induction false} BlockAppend(a: seq<string>, b: seq<string>)
    ensures Block(a + b) == Block(a) + Block(b)
  {
    if |a| > 0 {
      assert (a + b)[0] == a[0];
      assert (a + b)[1..] == a[1..] + b;
      BlockAppend(a[1..], b);
      assert a[0] + "\n" + (Block(a[1..]) + Block(b)) == a[0] + "\n" + Block(a[1..]) + Block(b);
    } else {
      assert a + b == b;
    }
  }

  /** The frames finished so far, the lines of the frame in progress and how many there are. */
  datatype Chunking = Chunking(frames: seq<string>, current: string, count: nat)

  /** One body line: it joins the frame in progress, which is finished once it holds `height` lines. */
  function Feed(c: Chunking, line: string, height: nat): Chunking
  {
    var current := c.current + line + "\n";
    if c.count + 1 == height then Chunking(c.frames + [TrimEnd(current)], "", 0)
    else Chunking(c.frames, current, c.count + 1)
  }

  /** The state after feeding every line of `rest`. */
  function ChunkFrom(c: Chunking, rest: seq<string>, height: nat): Chunking
    decreases |rest|
  {
    if |rest| == 0 then c else ChunkFrom(Feed(c, rest[0], height), rest[1..], height)
  }

  const Start := Chunking([], "", 0)

  /**
   * from_string: the first line is the header; the remaining lines are cut
   * into frames of `height` lines. When no frame is complete, everything
   * read becomes the only frame and the height becomes its line count.
   */
  function ParseSheet(content: string): (r: Result<Sheet, SheetError>)
    ensures r.Success? ==> |r.value.frames| >= 1
  {
    var lines := Lines(content);
    if |lines| == 0 then Failure(EmptyFile)
    else
      match ParseHeader(lines[0])
      case Failure(e) => Failure(e)
      case Success((w, h)) =>
        var c := ChunkFrom(Start, lines[1..], h);
        if |c.frames| == 0 then Success(Sheet(w, c.count, [TrimEnd(c.current)]))
        else Success(Sheet(w, h, c.frames))
  }

  /** The loop of from_string over the body lines, proved to build the same sheet. */
  method FromString(content: string) returns (r: Result<Sheet, SheetError>)
    ensures r == ParseSheet(content)
  {
    var lines := Lines(content);
    if |lines| == 0 {
      return Failure(EmptyFile);
    }
    var header := ParseHeader(lines[0]);
    if header.Failure? {
      return Failure(header.error);
    }
    var width := header.value.0;
    var height := header.value.1;
    var frames, current, lineCount := CutFrames(lines[1..], height);
    assert ParseHeader(lines[0]) == Success((width, height));
    ghost var c := ChunkFrom(Start, lines[1..], height);
    assert c.frames == frames && c.current == current && c.count == lineCount;
    if |frames| == 0 {
      assert ParseSheet(content) == Success(Sheet(width, lineCount, [TrimEnd(current)]));
      frames := frames + [TrimEnd(current)];
      assert frames == [TrimEnd(current)];
      height := lineCount;
    } else {
      assert ParseSheet(content) == Success(Sheet(width, height, frames));
    }
    return Success(Sheet(width, height, frames));
  }

  /**
   * The errors of from_string: an empty text, then a first line without the
   * header prefix; any other failure is one of the dimension errors.
   */
  lemma SheetErrors(content: string)
    ensures ParseSheet(content) == Failure(EmptyFile) <==> |Lines(content)| == 0
    ensures |Lines(content)| > 0 && !StartsWith(Lines(content)[0], HeaderPrefix) ==>
      ParseSheet(content) == Failure(InvalidHeader)
    ensures ParseSheet(content).Failure? && |Lines(content)| > 0 ==>
      ParseSheet(content) == Failure(ParseHeader(Lines(content)[0]).error)
  {
    var lines := Lines(content);
    if |lines| > 0 && ParseHeader(lines[0]).Success? {
      assert ParseSheet(content).Success?;
    }
  }

  /**
   * When the body holds no complete frame (fewer lines than the height, or a
   * height of 0), the whole body, trimmed at its end, is the only frame, and
   * the height becomes the number of body lines.
   */
  lemma OnlyPartialFrame(content: string, w: nat, h: nat, body: seq<string>)
    requires |Lines(content)| > 0 && Lines(content)[1..] == body
    requires ParseHeader(Lines(content)[0]) == Success((w, h))
    requires |body| < h || h == 0
    ensures ParseSheet(content) == Success(Sheet(w, |body|, [TrimEnd(Block(body))]))
  {
    PartialChunk(body, h);
  }

  /** Too few body lines for a frame, or a height of 0, leave every line in progress. */
  lemma PartialChunk(body: seq<string>, h: nat)
    requires |body| < h || h == 0
    ensures ChunkFrom(Start, body, h) == Chunking([], Block(body), |body|)
  {
    if h == 0 {
      ZeroHeightKeepsAll(Start, body);
    } else {
      FeedPartial(Start, body, h);
    }
    assert "" + Block(body) == Block(body);
  }

  /** The loop that cuts the body lines into frames of `height` lines. */
  method CutFrames(body: seq<string>, height: nat) returns (frames: seq<string>, current: string, lineCount: nat)
    ensures Chunking(frames, current, lineCount) == ChunkFrom(Start, body, height)
  {
    frames, current, lineCount := [], "", 0;
    var i := 0;
    while i < |body|
      invariant 0 <= i <= |body|
      invariant ChunkFrom(Chunking(frames, current, lineCount), body[i..], height) == ChunkFrom(Start, body, height)
    {
      assert body[i..][1..] == body[i + 1..];
      current := current + body[i] + "\n";
      lineCount := lineCount + 1;
      if lineCount == height {
        frames := frames + [TrimEnd(current)];
        current := "";
        lineCount := 0;
      }
      i := i + 1;
    }
    assert body[i..] == [];
  }

  /** Fewer lines than complete the frame in progress only extend it. */
  lemma {:induction false} FeedPartial(c: Chunking, rest: seq<string>, height: nat)
    requires c.count + |rest| < height
    ensures ChunkFrom(c, rest, height) == Chunking(c.frames, c.current + Block(rest), c.count + |rest|)
    decreases |rest|
  {
    if |rest| > 0 {
      var next := Feed(c, rest[0], height);
      FeedPartial(next, rest[1..], height);
      assert c.current + rest[0] + "\n" + Block(rest[1..]) == c.current + Block(rest);
    }
  }

  /** Enough lines to complete the frame in progress finish it and start afresh. */
  lemma {:induction false} FeedComplete(c: Chunking, rest: seq<string>, height: nat)
    requires c.count < height <= c.count + |rest|
    ensures ChunkFrom(c, rest, height) ==
      ChunkFrom(Chunking(c.frames + [TrimEnd(c.current + Block(rest[..height - c.count]))], "", 0), rest[height - c.count..], height)
    decreases |rest|
  {
    var next := Feed(c, rest[0], height);
    assert rest[..height - c.count][1..] == rest[1..][..height - c.count - 1];
    if c.count + 1 == height {
      assert rest[..1][0] == rest[0] && rest[..1][1..] == [];
      assert Block(rest[..1]) == rest[0] + "\n" + "";
      assert c.current + rest[0] + "\n" == c.current + (rest[0] + "\n" + "");
    } else {
      FeedComplete(next, rest[1..], height);
      assert c.current + rest[0] + "\n" + Block(rest[1..][..height - c.count - 1]) == c.current + Block(rest[..height - c.count]);
    }
  }

  /** The complete `height`-line groups of the lines, each as its lines with trailing whitespace removed. */
  function Groups(lines: seq<string>, height: nat): seq<string>
    requires height > 0
    decreases |lines|
  {
    if |lines| < height then [] else [TrimEnd(Block(lines[..height]))] + Groups(lines[height..], height)
  }

  /** The lines after the last complete group: fewer than `height` of them, at the end of the lines. */
  function Leftover(lines: seq<string>, height: nat): (r: seq<string>)
    requires height > 0
    ensures |r| < height
    decreases |lines|
  {
    if |lines| < height then lines else Leftover(lines[height..], height)
  }

  /**
   * With a positive height the body is cut into complete groups of `height`
   * lines, and the lines after the last complete group are left in progress.
   */
  lemma {:induction false} ChunksAreGroups(frames: seq<string>, lines: seq<string>, height: nat)
    requires height > 0
    ensures ChunkFrom(Chunking(frames, "", 0), lines, height) ==
      Chunking(frames + Groups(lines, height), Block(Leftover(lines, height)), |Leftover(lines, height)|)
    decreases |lines|
  {
    if |lines| < height {
      FeedPartial(Chunking(frames, "", 0), lines, height);
      assert "" + Block(lines) == Block(lines);
    } else {
      var group := TrimEnd(Block(lines[..height]));
      assert "" + Block(lines[..height]) == Block(lines[..height]);
      FeedComplete(Chunking(frames, "", 0), lines, height);
      ChunksAreGroups(frames + [group], lines[height..], height);
      assert Groups(lines, height) == [group] + Groups(lines[height..], height);
      assert frames + [group] + Groups(lines[height..], height) == frames + Groups(lines, height);
    }
  }

  /** With height 0 no frame is ever complete: all the body is one frame in progress. */
  lemma {:induction false} ZeroHeightKeepsAll(c: Chunking, lines: seq<string>)
    ensures ChunkFrom(c, lines, 0) == Chunking(c.frames, c.current + Block(lines), c.count + |lines|)
    decreases |lines|
  {
    if |lines| > 0 {
      ZeroHeightKeepsAll(Feed(c, lines[0], 0), lines[1..]);
      assert c.current + lines[0] + "\n" + Block(lines[1..]) == c.current + Block(lines);
    }
  }

  // ---------------------------------------------------------------------
  // Display and the round trip

  /** Display: the header line, then every frame followed by a line feed. */
  function Display(sheet: Sheet): string
  {
    HeaderText(sheet.width, sheet.height) + "\n" + Block(sheet.frames)
  }

  /** A line of a text: no line feed in it and no carriage return at its end. */
  predicate IsLine(l: string)
  {
    '\n' !in l && (|l| == 0 || l[|l| - 1] != '\r')
  }

  /** A line followed by a line feed is the first of the lines. */
  lemma LinesCons(a: string, rest: string)
    requires IsLine(a)
    ensures Lines(a + "\n" + rest) == [a] + Lines(rest)
  {
    var s := a + "\n" + rest;
    assert s[|a|] == '\n' && s[..|a|] == a;
    IndexOfUnique(s, '\n', |a|);
    assert s[|a| + 1..] == rest;
    assert StripCr(a) == a;
    assert Lines(s) == [StripCr(s[..|a|])] + Lines(s[|a| + 1..]);
  }

  /** The lines of a block are the lines it was made of. */
  lemma {:induction false} LinesOfBlock(ls: seq<string>)
    requires forall k :: 0 <= k < |ls| ==> IsLine(ls[k])
    ensures Lines(Block(ls)) == ls
  {
    if |ls| > 0 {
      LinesCons(ls[0], Block(ls[1..]));
      LinesOfBlock(ls[1..]);
    }
  }

  /** All the lines of a sequence of groups, in order. */
  function Flatten(groups: seq<seq<string>>): seq<string>
  {
    if |groups| == 0 then [] else groups[0] + Flatten(groups[1..])
  }

  /** A frame: the lines of a group joined by line feeds. */
  function FrameOf(group: seq<string>): string
  {
    Join(group, "\n")
  }

  /** A non-empty group's frame followed by a line feed is the group's block. */
  lemma {:induction false} FrameBlock(group: seq<string>)
    requires |group| > 0
    ensures FrameOf(group) + "\n" == Block(group)
  {
    if |group| > 1 {
      FrameBlock(group[1..]);
      assert group[0] + "\n" + Join(group[1..], "\n") + "\n" == group[0] + "\n" + (Join(group[1..], "\n") + "\n");
    } else {
      assert group[1..] == [];
    }
  }

  /** A frame ends with the last character of its last line. */
  lemma {:induction false} FrameEnd(group: seq<string>)
    requires |group| > 0 && |group[|group| - 1]| > 0
    ensures |FrameOf(group)| > 0
    ensures FrameOf(group)[|FrameOf(group)| - 1] == group[|group| - 1][|group[|group| - 1]| - 1]
  {
    if |group| > 1 {
      FrameEnd(group[1..]);
      assert group[1..][|group| - 2] == group[|group| - 1];
    }
  }

  /** The frames of a sequence of groups. */
  function FramesOf(groups: seq<seq<string>>): (r: seq<string>)
    ensures |r| == |groups|
  {
    if |groups| == 0 then [] else [FrameOf(groups[0])] + FramesOf(groups[1..])
  }

  /** A group of lines whose last line ends in a non-whitespace character. */
  predicate IsGroup(group: seq<string>, height: nat)
  {
    |group| == height && height > 0 && |group[height - 1]| > 0 && !IsSpace(group[height - 1][|group[height - 1]| - 1])
  }

  /** Trimming a group's block gives back its frame. */
  lemma GroupTrim(group: seq<string>, height: nat)
    requires IsGroup(group, height)
    ensures TrimEnd(Block(group)) == FrameOf(group)
  {
    FrameBlock(group);
    FrameEnd(group);
    var f := FrameOf(group);
    assert (f + "\n")[..|f|] == f;
  }

  /** Writing the frames of groups writes the lines of the groups. */
  lemma {:induction false} BlockOfFrames(groups: seq<seq<string>>)
    requires forall k :: 0 <= k < |groups| ==> |groups[k]| > 0
    ensures Block(FramesOf(groups)) == Block(Flatten(groups))
  {
    if |groups| > 0 {
      BlockOfFrames(groups[1..]);
      FrameBlock(groups[0]);
      BlockAppend(groups[0], Flatten(groups[1..]));
      assert FramesOf(groups)[0] == FrameOf(groups[0]) && FramesOf(groups)[1..] == FramesOf(groups[1..]);
      assert FrameOf(groups[0]) + "\n" + Block(FramesOf(groups[1..])) == Block(groups[0]) + Block(FramesOf(groups[1..]));
    }
  }

  /** Cutting the lines of whole groups gives back the groups' frames and leaves nothing over. */
  lemma {:induction false} GroupsOfFlatten(groups: seq<seq<string>>, height: nat)
    requires height > 0 && forall k :: 0 <= k < |groups| ==> IsGroup(groups[k], height)
    ensures Groups(Flatten(groups), height) == FramesOf(groups)
    ensures Leftover(Flatten(groups), height) == []
  {
    if |groups| > 0 {
      var lines := Flatten(groups);
      assert lines[..height] == groups[0] && lines[height..] == Flatten(groups[1..]);
      GroupTrim(groups[0], height);
      GroupsOfFlatten(groups[1..], height);
    }
  }

  /** Every line of a sequence of groups is a line of one of them. */
  lemma {:induction false} FlattenLines(groups: seq<seq<string>>)
    requires forall k, j :: 0 <= k < |groups| && 0 <= j < |groups[k]| ==> IsLine(groups[k][j])
    ensures forall j :: 0 <= j < |Flatten(groups)| ==> IsLine(Flatten(groups)[j])
  {
    if |groups| > 0 {
      FlattenLines(groups[1..]);
      forall j | 0 <= j < |Flatten(groups)| ensures IsLine(Flatten(groups)[j]) {
        if j >= |groups[0]| {
          assert Flatten(groups)[j] == Flatten(groups[1..])[j - |groups[0]|];
        } else {
          assert Flatten(groups)[j] == groups[0][j];
        }
      }
    }
  }

  /** The header line is a single line. */
  lemma HeaderIsLine(w: nat, h: nat)
    ensures IsLine(HeaderText(w, h))
  {
    var d := DimensionsText(w, h);
    DimensionsShape(w, h);
    DigitsExclude(NatToString(w), '\n');
    DigitsExclude(NatToString(h), '\n');
    assert '\n' !in HeaderPrefix;
    var t := HeaderText(w, h);
    assert t[|t| - 1] == NatToString(h)[|NatToString(h)| - 1];
  }

  /** The lines Display writes: the header, then every line of every frame. */
  lemma DisplayLines(w: nat, h: nat, groups: seq<seq<string>>)
    requires forall k :: 0 <= k < |groups| ==> |groups[k]| > 0
    requires forall k, j :: 0 <= k < |groups| && 0 <= j < |groups[k]| ==> IsLine(groups[k][j])
    ensures Lines(Display(Sheet(w, h, FramesOf(groups)))) == [HeaderText(w, h)] + Flatten(groups)
  {
    BlockOfFrames(groups);
    HeaderIsLine(w, h);
    LinesCons(HeaderText(w, h), Block(Flatten(groups)));
    FlattenLines(groups);
    LinesOfBlock(Flatten(groups));
  }

  /** Cutting the lines of whole groups of `height` lines finishes exactly the groups' frames. */
  lemma CutWholeGroups(groups: seq<seq<string>>, height: nat)
    requires height > 0 && forall k :: 0 <= k < |groups| ==> IsGroup(groups[k], height)
    ensures ChunkFrom(Start, Flatten(groups), height).frames == FramesOf(groups)
  {
    ChunksAreGroups([], Flatten(groups), height);
    GroupsOfFlatten(groups, height);
  }

  /** A text whose header names (w, h) and whose body has complete frames parses to those frames. */
  lemma SheetOfParts(content: string, w: nat, h: nat, body: seq<string>, frames: seq<string>)
    requires Lines(content) == [HeaderText(w, h)] + body
    requires ParseHeader(HeaderText(w, h)) == Success((w, h))
    requires ChunkFrom(Start, body, h).frames == frames && |frames| > 0
    ensures ParseSheet(content) == Success(Sheet(w, h, frames))
  {
    assert Lines(content)[1..] == body;
  }

  /**
   * Display followed by from_string gives the sheet back, when it has at
   * least one frame, a positive height, and frames made of exactly `height`
   * lines whose last line ends in a character that is not whitespace.
   */
  lemma DisplayRoundTrip(w: nat, h: nat, groups: seq<seq<string>>)
    requires w < UsizeBound && h < UsizeBound && |groups| > 0
    requires forall k :: 0 <= k < |groups| ==> IsGroup(groups[k], h)
    requires forall k, j :: 0 <= k < |groups| && 0 <= j < |groups[k]| ==> IsLine(groups[k][j])
    ensures ParseSheet(Display(Sheet(w, h, FramesOf(groups)))) == Success(Sheet(w, h, FramesOf(groups)))
  {
    DisplayLines(w, h, groups);
    HeaderRoundTrip(w, h);
    CutWholeGroups(groups, h);
    SheetOfParts(Display(Sheet(w, h, FramesOf(groups))), w, h, Flatten(groups), FramesOf(groups));
  }
}
