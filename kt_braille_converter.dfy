/**
 * The braille converter of the pixel editor app: boolean pixel grids to
 * braille text and back. A grid is a list of rows indexed [y][x], and a
 * true pixel is an inked dot.
 */
module KtBrailleConverter {
  import opened BraillePatterns
  import Text

  /** BRAILLE_BASE. */
  const BrailleBase: int := 0x2800

  /** brailleOffsets: (dx, dy, bit) in the order the converter visits them. */
  const BrailleOffsets: seq<(nat, nat, bv32)> :=
    [(0, 0, 0x01), (0, 1, 0x02), (0, 2, 0x04), (0, 3, 0x40), (1, 0, 0x08), (1, 1, 0x10), (1, 2, 0x20), (1, 3, 0x80)]

  /** The cell index dy * 2 + dx of offset k. */
  function OffsetIndex(k: nat): (i: nat)
    requires k < 8
    ensures i < 8
  {
    BrailleOffsets[k].1 * 2 + BrailleOffsets[k].0
  }

  /** Each offset is a dot of the cell and carries the standard's bit for that dot. */
  lemma OffsetsFollowStandard(k: nat)
    requires k < 8
    ensures BrailleOffsets[k].0 < 2 && BrailleOffsets[k].1 < 4
    ensures BrailleOffsets[k].2 == DotBit(DotNumber(BrailleOffsets[k].0, BrailleOffsets[k].1))
  {
    CellBitsFollowStandard(BrailleOffsets[k].0, BrailleOffsets[k].1);
  }

  // ----- pixelsToBraille -----

  /** The converter takes row 0's length as the width, so no row may be shorter. */
  predicate Fits(pixels: seq<seq<bool>>)
  {
    forall y :: 0 <= y < |pixels| ==> |pixels[y]| >= |pixels[0]|
  }

  /** Whether (x, y) lies inside the grid and is inked. */
  predicate Inked(pixels: seq<seq<bool>>, x: nat, y: nat)
    requires Fits(pixels)
  {
    y < |pixels| && x < |pixels[0]| && pixels[y][x]
  }

  /** The dots of character cell (cx, cy). */
  function Cell(pixels: seq<seq<bool>>, cx: nat, cy: nat): (cell: seq<bool>)
    requires Fits(pixels)
    ensures |cell| == 8
  {
    seq(8, i requires 0 <= i < 8 => Inked(pixels, 2 * cx + i % 2, 4 * cy + i / 2))
  }

  /** The value of a cell after the first k offsets have been ORed in. */
  function CellValue(cell: seq<bool>, k: nat): bv32
    requires |cell| == 8 && k <= 8
  {
    if k == 0 then 0
    else if cell[OffsetIndex(k - 1)] then CellValue(cell, k - 1) | BrailleOffsets[k - 1].2
    else CellValue(cell, k - 1)
  }

  /** The step at which the converter visits cell index i. */
  function VisitStep(i: nat): (k: nat)
    requires i < 8
    ensures k < 8
  {
    (i % 2) * 4 + i / 2
  }

  /** Each offset lies inside the 2x4 cell. */
  lemma OffsetInCell(k: nat)
    requires k < 8
    ensures BrailleOffsets[k].0 < 2 && BrailleOffsets[k].1 < 4
  {
  }

  /** Offset k visits cell index i exactly when i's step is k; offset k carries that index's bit. */
  lemma OffsetTable(k: nat, i: nat)
    requires k < 8 && i < 8
    ensures BrailleOffsets[k].0 < 2 && BrailleOffsets[k].1 < 4
    ensures OffsetIndex(k) == i <==> VisitStep(i) == k
    ensures BrailleOffsets[k].2 == CellBits[OffsetIndex(k)]
  {
    OffsetInCell(k);
  }

  /** After k offsets, a cell's value has the bit of index i exactly when i was visited and is inked. */
  lemma {:induction false} CellValueBits(cell: seq<bool>, k: nat, i: nat)
    requires |cell| == 8 && k <= 8 && i < 8
    ensures CellValue(cell, k) <= 0xFF
    ensures HasBit(CellValue(cell, k), CellBits[i]) <==> VisitStep(i) < k && cell[i]
  {
    if k > 0 {
      CellValueBits(cell, k - 1, i);
      OffsetTable(k - 1, i);
      AddBit(CellValue(cell, k - 1), cell[OffsetIndex(k - 1)], OffsetIndex(k - 1), i);
    }
  }

  /** Two bytes with the same cell bits are equal. */
  lemma SameByte(a: bv32, b: bv32)
    requires a <= 0xFF && b <= 0xFF
    requires forall i :: 0 <= i < 8 ==> (HasBit(a, CellBits[i]) <==> HasBit(b, CellBits[i]))
    ensures a == b
  {
    assert HasBit(a, CellBits[0]) == HasBit(b, CellBits[0]);
    assert HasBit(a, CellBits[1]) == HasBit(b, CellBits[1]);
    assert HasBit(a, CellBits[2]) == HasBit(b, CellBits[2]);
    assert HasBit(a, CellBits[3]) == HasBit(b, CellBits[3]);
    assert HasBit(a, CellBits[4]) == HasBit(b, CellBits[4]);
    assert HasBit(a, CellBits[5]) == HasBit(b, CellBits[5]);
    assert HasBit(a, CellBits[6]) == HasBit(b, CellBits[6]);
    assert HasBit(a, CellBits[7]) == HasBit(b, CellBits[7]);
  }

  /** Once all eight offsets are visited, the converter's value is the standard's mask of the cell. */
  lemma CellValueIsMask(cell: seq<bool>, k: nat)
    requires |cell| == 8 && k == |cell|
    ensures CellValue(cell, k) == Mask(cell, k)
  {
    var v, m := CellValue(cell, k), Mask(cell, k);
    forall i | 0 <= i < 8
      ensures HasBit(v, CellBits[i]) <==> HasBit(m, CellBits[i])
    {
      CellValueBits(cell, k, i);
      MaskBits(cell, k, i);
    }
    CellValueBits(cell, k, 0);
    SameByte(v, m);
  }

  /** Offset k of cell (cx, cy) reads the pixel at the offset from the cell's corner. */
  lemma CellOffset(pixels: seq<seq<bool>>, cx: nat, cy: nat, k: nat)
    requires Fits(pixels) && k < 8
    ensures Cell(pixels, cx, cy)[OffsetIndex(k)] == Inked(pixels, 2 * cx + BrailleOffsets[k].0, 4 * cy + BrailleOffsets[k].1)
  {
  }

  /** The value of one cell, offset by offset. */
  method ValueOfCell(pixels: seq<seq<bool>>, charX: nat, charY: nat) returns (brailleValue: bv32)
    requires Fits(pixels)
    ensures brailleValue == Mask(Cell(pixels, charX, charY), 8)
  {
    ghost var cell := Cell(pixels, charX, charY);
    var baseX := charX * 2;
    var baseY := charY * 4;
    brailleValue := 0;
    var k := 0;
    while k < 8
      invariant k <= 8 && brailleValue == CellValue(cell, k)
    {
      var (dx, dy, bit) := BrailleOffsets[k];
      var x := baseX + dx;
      var y := baseY + dy;
      CellOffset(pixels, charX, charY, k);
      if y < |pixels| && x < |pixels[0]| && pixels[y][x] {
        brailleValue := brailleValue | bit;
      }
      k := k + 1;
    }
    CellValueIsMask(cell, k);
  }

  /** The first n characters of character row cy. */
  function EncodedRow(pixels: seq<seq<bool>>, cy: nat, n: nat): (row: string)
    requires Fits(pixels)
    ensures |row| == n
    ensures forall cx :: 0 <= cx < n ==> row[cx] == Pattern(Cell(pixels, cx, cy))
  {
    if n == 0 then "" else EncodedRow(pixels, cy, n - 1) + [Pattern(Cell(pixels, n - 1, cy))]
  }

  /** One character row, built cell by cell. */
  method EncodeRow(pixels: seq<seq<bool>>, charY: nat, charWidth: nat) returns (line: string)
    requires Fits(pixels)
    ensures line == EncodedRow(pixels, charY, charWidth)
  {
    line := "";
    for charX := 0 to charWidth
      invariant line == EncodedRow(pixels, charY, charX)
    {
      var brailleValue := ValueOfCell(pixels, charX, charY);
      OffsetRoundTrip(brailleValue);
      line := line + [(BrailleBase + brailleValue as int) as char];
    }
  }

  /** The first n lines of the text: each row with trailing whitespace trimmed. */
  function EncodedLines(pixels: seq<seq<bool>>, width: nat, n: nat): (lines: seq<string>)
    requires Fits(pixels)
    ensures |lines| == n
    ensures forall cy :: 0 <= cy < n ==> lines[cy] == Text.TrimEnd(EncodedRow(pixels, cy, width))
  {
    if n == 0 then [] else EncodedLines(pixels, width, n - 1) + [Text.TrimEnd(EncodedRow(pixels, n - 1, width))]
  }

  function CharWidth(pixels: seq<seq<bool>>): nat
    requires |pixels| > 0
  {
    (|pixels[0]| + 1) / 2
  }

  function CharHeight(pixels: seq<seq<bool>>): nat
  {
    (|pixels| + 3) / 4
  }

  /** The braille text of a grid: empty for an empty grid, else its lines joined by newlines. */
  function PixelsText(pixels: seq<seq<bool>>): string
    requires Fits(pixels)
  {
    if |pixels| == 0 || |pixels[0]| == 0 then ""
    else Text.Join(EncodedLines(pixels, CharWidth(pixels), CharHeight(pixels)), "\n")
  }

  /** pixelsToBraille. */
  method PixelsToBraille(pixels: seq<seq<bool>>) returns (r: string)
    requires Fits(pixels)
    ensures r == PixelsText(pixels)
  {
    if |pixels| == 0 || |pixels[0]| == 0 {
      return "";
    }
    var lines: seq<string> := [];
    var charHeight := (|pixels| + 3) / 4;
    var charWidth := (|pixels[0]| + 1) / 2;
    for charY := 0 to charHeight
      invariant lines == EncodedLines(pixels, charWidth, charY)
    {
      var line := EncodeRow(pixels, charY, charWidth);
      lines := lines + [Text.TrimEnd(line)];
    }
    r := Text.Join(lines, "\n");
  }

  /** No braille pattern is whitespace, so trimming the end of a row of patterns keeps it whole. */
  lemma {:induction false} TrimEndKeepsPatterns(row: string)
    requires forall cx :: 0 <= cx < |row| ==> IsPattern(row[cx])
    ensures Text.TrimEnd(row) == row
  {
    if |row| > 0 {
      assert IsPattern(row[|row| - 1]);
    }
  }

  /** Every character of every line is a braille pattern. */
  predicate AllPatterns(lines: seq<string>)
  {
    forall cy :: 0 <= cy < |lines| ==> forall cx :: 0 <= cx < |lines[cy]| ==> IsPattern(lines[cy][cx])
  }

  /** The lines of a grid's text are its character rows, each holding the cell patterns in order. */
  lemma EncodedLinesArePatterns(pixels: seq<seq<bool>>, width: nat, n: nat)
    requires Fits(pixels)
    ensures AllPatterns(EncodedLines(pixels, width, n))
    ensures forall cy :: 0 <= cy < n ==> EncodedLines(pixels, width, n)[cy] == EncodedRow(pixels, cy, width)
  {
    forall cy | 0 <= cy < n
      ensures EncodedLines(pixels, width, n)[cy] == EncodedRow(pixels, cy, width)
    {
      TrimEndKeepsPatterns(EncodedRow(pixels, cy, width));
    }
  }

  /** Lines of patterns joined by newlines split back into the same lines. */
  lemma SplitPatternLines(lines: seq<string>)
    requires |lines| > 0 && AllPatterns(lines)
    ensures Text.Split(Text.Join(lines, "\n"), '\n') == lines
  {
    forall cy | 0 <= cy < |lines|
      ensures '\n' !in lines[cy]
    {
      assert forall cx :: 0 <= cx < |lines[cy]| ==> IsPattern(lines[cy][cx]);
    }
    Text.SplitJoin(lines, '\n');
  }

  /** Dot (dx, dy) of cell (cx, cy) is the pixel at that offset from the cell's corner. */
  lemma CellDot(pixels: seq<seq<bool>>, cx: nat, cy: nat, dx: nat, dy: nat)
    requires Fits(pixels) && dx < 2 && dy < 4
    ensures Cell(pixels, cx, cy)[dy * 2 + dx] == Inked(pixels, 2 * cx + dx, 4 * cy + dy)
  {
  }

  /**
   * A non-empty grid's text has ceil(rows / 4) lines of ceil(columns / 2)
   * characters; dot (dx, dy) of character (cx, cy) is raised exactly when
   * pixel (2cx + dx, 4cy + dy) lies inside the grid and is inked.
   */
  lemma PixelsTextShape(pixels: seq<seq<bool>>, cx: nat, cy: nat, dx: nat, dy: nat)
    requires Fits(pixels) && |pixels| > 0 && |pixels[0]| > 0
    requires cx < CharWidth(pixels) && cy < CharHeight(pixels) && dx < 2 && dy < 4
    ensures var lines := Text.Split(PixelsText(pixels), '\n');
      |lines| == CharHeight(pixels) && |lines[cy]| == CharWidth(pixels) && IsPattern(lines[cy][cx])
      && (Raised(lines[cy][cx], dx, dy) <==> Inked(pixels, 2 * cx + dx, 4 * cy + dy))
  {
    var lines := EncodedLines(pixels, CharWidth(pixels), CharHeight(pixels));
    EncodedLinesArePatterns(pixels, CharWidth(pixels), CharHeight(pixels));
    SplitPatternLines(lines);
    assert Text.Split(PixelsText(pixels), '\n') == lines;
    assert lines[cy][cx] == Pattern(Cell(pixels, cx, cy));
    PatternDots(Cell(pixels, cx, cy));
    CellDot(pixels, cx, cy, dx, dy);
  }

  /** An empty grid, or one whose first row is empty, gives empty text. */
  lemma EmptyGridText(pixels: seq<seq<bool>>)
    requires Fits(pixels) && (|pixels| == 0 || |pixels[0]| == 0)
    ensures PixelsText(pixels) == ""
  {
  }

  // ----- brailleToPixels -----

  /** brailleValue: the character's code minus the base, as a 32-bit two's-complement Int. */
  function BrailleValue(c: char): bv32
  {
    ((c as int - BrailleBase) % 0x1_0000_0000) as bv32
  }

  lemma BrailleValueOfPattern(c: char)
    requires IsPattern(c)
    ensures BrailleValue(c) == Offset(c)
  {
  }

  /** Whether a braille value raises the dot in column dx, row dy. */
  predicate DotSet(brailleValue: bv32, dx: nat, dy: nat)
    requires dx < 2 && dy < 4
  {
    HasBit(brailleValue, CellBits[dy * 2 + dx])
  }

  /** Whether character (cx, cy) of a frame's lines sets dot (dx, dy), as brailleToPixels reads it. */
  predicate LitDot(frameLines: seq<string>, charWidth: nat, cx: nat, cy: nat, dx: nat, dy: nat)
    requires dx < 2 && dy < 4
  {
    cy < |frameLines| && cx < |frameLines[cy]| && cx < charWidth
    && DotSet(BrailleValue(frameLines[cy][cx]), dx, dy)
  }

  /** The frame of (charHeight * 4) x (charWidth * 2) pixels that a group of lines decodes to. */
  function DecodedFrame(frameLines: seq<string>, charWidth: nat, charHeight: nat): (frame: seq<seq<bool>>)
    ensures |frame| == 4 * charHeight
    ensures forall y :: 0 <= y < |frame| ==> |frame[y]| == 2 * charWidth
  {
    seq(4 * charHeight, y requires 0 <= y < 4 * charHeight =>
      seq(2 * charWidth, x requires 0 <= x < 2 * charWidth => LitDot(frameLines, charWidth, x / 2, y / 4, x % 2, y % 4)))
  }

  /** Pixel (2cx + dx, 4cy + dy) of a grid. */
  function At(grid: seq<seq<bool>>, cx: nat, cy: nat, dx: nat, dy: nat): bool
    requires 4 * cy + dy < |grid| && 2 * cx + dx < |grid[4 * cy + dy]|
  {
    grid[4 * cy + dy][2 * cx + dx]
  }

  /** A frame-sized grid. */
  predicate Shaped(grid: seq<seq<bool>>, charWidth: nat, charHeight: nat)
  {
    |grid| == 4 * charHeight && forall y :: 0 <= y < |grid| ==> |grid[y]| == 2 * charWidth
  }

  /** Whether offset (dx, dy) is among the first k offsets. */
  predicate OffsetAmong(dx: nat, dy: nat, k: nat)
    requires dx < 2 && dy < 4
  {
    (if dx == 0 then dy else 4 + dy) < k
  }

  /** The first k + 1 offsets are the first k and offset k. */
  lemma AmongStep(dx: nat, dy: nat, k: nat)
    requires dx < 2 && dy < 4 && k < 8
    ensures OffsetAmong(dx, dy, k + 1) <==> OffsetAmong(dx, dy, k) || (dx == BrailleOffsets[k].0 && dy == BrailleOffsets[k].1)
  {
  }

  /** A pixel lies in exactly one cell, at exactly one offset. */
  lemma PixelOfCell(cx: nat, cy: nat, dx: nat, dy: nat, cx': nat, cy': nat, dx': nat, dy': nat)
    requires dx < 2 && dy < 4 && dx' < 2 && dy' < 4
    ensures 4 * cy + dy == 4 * cy' + dy' && 2 * cx + dx == 2 * cx' + dx' <==> cx == cx' && cy == cy' && dx == dx' && dy == dy'
  {
  }

  /** Inking pixel (2cx' + dx', 4cy' + dy') when `ink` holds changes that dot of that cell and nothing else. */
  lemma SetDot(grid: seq<seq<bool>>, grid': seq<seq<bool>>, ink: bool, charWidth: nat, charHeight: nat,
               cx': nat, cy': nat, dx': nat, dy': nat)
    requires Shaped(grid, charWidth, charHeight) && cx' < charWidth && cy' < charHeight && dx' < 2 && dy' < 4
    requires grid' == if ink then grid[cy' * 4 + dy' := grid[cy' * 4 + dy'][cx' * 2 + dx' := true]] else grid
    ensures Shaped(grid', charWidth, charHeight)
    ensures forall cx: nat, cy: nat, dx: nat, dy: nat :: cx < charWidth && cy < charHeight && dx < 2 && dy < 4 ==>
      At(grid', cx, cy, dx, dy) == (At(grid, cx, cy, dx, dy) || (ink && cx == cx' && cy == cy' && dx == dx' && dy == dy'))
  {
    forall cx: nat, cy: nat, dx: nat, dy: nat | cx < charWidth && cy < charHeight && dx < 2 && dy < 4
      ensures At(grid', cx, cy, dx, dy) == (At(grid, cx, cy, dx, dy) || (ink && cx == cx' && cy == cy' && dx == dx' && dy == dy'))
    {
      PixelOfCell(cx, cy, dx, dy, cx', cy', dx', dy');
    }
  }

  /** `grid` is `pixels` with those dots of cell (charX, charY) that `brailleValue` raises among the first k offsets inked. */
  predicate CellSetUpTo(grid: seq<seq<bool>>, pixels: seq<seq<bool>>, brailleValue: bv32,
                        charX: nat, charY: nat, charWidth: nat, charHeight: nat, k: nat)
    requires Shaped(pixels, charWidth, charHeight)
  {
    Shaped(grid, charWidth, charHeight)
    && forall cx: nat, cy: nat, dx: nat, dy: nat :: cx < charWidth && cy < charHeight && dx < 2 && dy < 4 ==>
      At(grid, cx, cy, dx, dy) ==
        (At(pixels, cx, cy, dx, dy) || (cx == charX && cy == charY && DotSet(brailleValue, dx, dy) && OffsetAmong(dx, dy, k)))
  }

  /** The grid after handling offset (dx, dy, bit) of cell (charX, charY): that dot inked when the value has the bit. */
  function NextGrid(grid: seq<seq<bool>>, brailleValue: bv32, charX: nat, charY: nat,
                    charWidth: nat, charHeight: nat, dx: nat, dy: nat, bit: bv32): (grid': seq<seq<bool>>)
    requires Shaped(grid, charWidth, charHeight) && charX < charWidth && charY < charHeight && dx < 2 && dy < 4
    ensures Shaped(grid', charWidth, charHeight)
  {
    if HasBit(brailleValue, bit) then grid[charY * 4 + dy := grid[charY * 4 + dy][charX * 2 + dx := true]] else grid
  }

  /** Handling offset k extends the set dots from the first k offsets to the first k + 1. */
  lemma SetCellStep(grid: seq<seq<bool>>, pixels: seq<seq<bool>>, brailleValue: bv32,
                    charX: nat, charY: nat, charWidth: nat, charHeight: nat, k: nat)
    requires Shaped(pixels, charWidth, charHeight) && charX < charWidth && charY < charHeight && k < 8
    requires CellSetUpTo(grid, pixels, brailleValue, charX, charY, charWidth, charHeight, k)
    ensures BrailleOffsets[k].0 < 2 && BrailleOffsets[k].1 < 4
    ensures CellSetUpTo(NextGrid(grid, brailleValue, charX, charY, charWidth, charHeight,
        BrailleOffsets[k].0, BrailleOffsets[k].1, BrailleOffsets[k].2),
      pixels, brailleValue, charX, charY, charWidth, charHeight, k + 1)
  {
    var dx', dy', bit := BrailleOffsets[k].0, BrailleOffsets[k].1, BrailleOffsets[k].2;
    OffsetTable(k, 0);
    var ink := HasBit(brailleValue, bit);
    assert ink == DotSet(brailleValue, dx', dy') by { assert bit == CellBits[dy' * 2 + dx']; }
    var grid' := NextGrid(grid, brailleValue, charX, charY, charWidth, charHeight, dx', dy', bit);
    SetDot(grid, grid', ink, charWidth, charHeight, charX, charY, dx', dy');
    forall cx: nat, cy: nat, dx: nat, dy: nat | cx < charWidth && cy < charHeight && dx < 2 && dy < 4
      ensures At(grid', cx, cy, dx, dy) ==
        (At(pixels, cx, cy, dx, dy) || (cx == charX && cy == charY && DotSet(brailleValue, dx, dy) && OffsetAmong(dx, dy, k + 1)))
    {
      AmongStep(dx, dy, k);
    }
  }

  /** The grid after the first k offsets of cell (charX, charY) have been handled. */
  function InkedUpTo(pixels: seq<seq<bool>>, brailleValue: bv32, charX: nat, charY: nat,
                     charWidth: nat, charHeight: nat, k: nat): (grid: seq<seq<bool>>)
    requires Shaped(pixels, charWidth, charHeight) && charX < charWidth && charY < charHeight && k <= 8
    ensures Shaped(grid, charWidth, charHeight)
  {
    if k == 0 then pixels else
      var grid := InkedUpTo(pixels, brailleValue, charX, charY, charWidth, charHeight, k - 1);
      var (dx, dy, bit) := BrailleOffsets[k - 1];
      OffsetInCell(k - 1);
      NextGrid(grid, brailleValue, charX, charY, charWidth, charHeight, dx, dy, bit)
  }

  /** After k offsets, exactly the cell's raised dots among the first k offsets have been inked. */
  lemma {:induction false} InkedUpToDots(pixels: seq<seq<bool>>, brailleValue: bv32, charX: nat, charY: nat,
                                         charWidth: nat, charHeight: nat, k: nat)
    requires Shaped(pixels, charWidth, charHeight) && charX < charWidth && charY < charHeight && k <= 8
    ensures CellSetUpTo(InkedUpTo(pixels, brailleValue, charX, charY, charWidth, charHeight, k),
      pixels, brailleValue, charX, charY, charWidth, charHeight, k)
  {
    if k > 0 {
      InkedUpToDots(pixels, brailleValue, charX, charY, charWidth, charHeight, k - 1);
      SetCellStep(InkedUpTo(pixels, brailleValue, charX, charY, charWidth, charHeight, k - 1),
        pixels, brailleValue, charX, charY, charWidth, charHeight, k - 1);
    }
  }

  /** Set the dots of one cell that `brailleValue` has, offset by offset. */
  method SetCell(pixels: seq<seq<bool>>, brailleValue: bv32, charX: nat, charY: nat, charWidth: nat, charHeight: nat)
    returns (result: seq<seq<bool>>)
    requires Shaped(pixels, charWidth, charHeight) && charX < charWidth && charY < charHeight
    ensures CellSetUpTo(result, pixels, brailleValue, charX, charY, charWidth, charHeight, 8)
  {
    var pixelHeight := charHeight * 4;
    var pixelWidth := charWidth * 2;
    var baseX := charX * 2;
    var baseY := charY * 4;
    result := pixels;
    var k := 0;
    while k < 8
      invariant k <= 8 && result == InkedUpTo(pixels, brailleValue, charX, charY, charWidth, charHeight, k)
    {
      var dx, dy, bit := BrailleOffsets[k].0, BrailleOffsets[k].1, BrailleOffsets[k].2;
      OffsetInCell(k);
      ghost var next := NextGrid(result, brailleValue, charX, charY, charWidth, charHeight, dx, dy, bit);
      if HasBit(brailleValue, bit) {
        var x := baseX + dx;
        var y := baseY + dy;
        if x < pixelWidth && y < pixelHeight {
          result := result[y := result[y][x := true]];
        }
      }
      assert result == next;
      k := k + 1;
    }
    InkedUpToDots(pixels, brailleValue, charX, charY, charWidth, charHeight, k);
  }

  /** brailleToPixels for one group of at most charHeight lines. */
  method DecodeFrame(frameLines: seq<string>, charWidth: nat, charHeight: nat) returns (pixels: seq<seq<bool>>)
    requires |frameLines| <= charHeight
    ensures pixels == DecodedFrame(frameLines, charWidth, charHeight)
  {
    var pixelHeight := charHeight * 4;
    var pixelWidth := charWidth * 2;
    pixels := seq(pixelHeight, _ => seq(pixelWidth, _ => false));
    for charY := 0 to |frameLines|
      invariant Shaped(pixels, charWidth, charHeight)
      invariant forall cx: nat, cy: nat, dx: nat, dy: nat :: cx < charWidth && cy < charHeight && dx < 2 && dy < 4 ==>
        At(pixels, cx, cy, dx, dy) == (cy < charY && LitDot(frameLines, charWidth, cx, cy, dx, dy))
    {
      var line := frameLines[charY];
      var columns := if |line| < charWidth then |line| else charWidth;
      for charX := 0 to columns
        invariant Shaped(pixels, charWidth, charHeight)
        invariant forall cx: nat, cy: nat, dx: nat, dy: nat :: cx < charWidth && cy < charHeight && dx < 2 && dy < 4 ==>
          At(pixels, cx, cy, dx, dy) ==
            ((cy < charY || (cy == charY && cx < charX)) && LitDot(frameLines, charWidth, cx, cy, dx, dy))
      {
        pixels := SetCell(pixels, BrailleValue(line[charX]), charX, charY, charWidth, charHeight);
      }
    }
    GridOfCells(pixels, frameLines, charWidth, charHeight);
  }

  /** Pixel (x, y) of a frame is dot (x % 2, y % 4) of cell (x / 2, y / 4). */
  lemma PixelPosition(x: nat, y: nat, charWidth: nat, charHeight: nat)
    requires x < 2 * charWidth && y < 4 * charHeight
    ensures x / 2 < charWidth && y / 4 < charHeight
    ensures 2 * (x / 2) + x % 2 == x && 4 * (y / 4) + y % 4 == y
  {
  }

  /** A frame-sized grid whose every cell dot is the decoded one is the decoded frame. */
  lemma GridOfCells(grid: seq<seq<bool>>, frameLines: seq<string>, charWidth: nat, charHeight: nat)
    requires Shaped(grid, charWidth, charHeight)
    requires forall cx: nat, cy: nat, dx: nat, dy: nat :: cx < charWidth && cy < charHeight && dx < 2 && dy < 4 ==>
      At(grid, cx, cy, dx, dy) == LitDot(frameLines, charWidth, cx, cy, dx, dy)
    ensures grid == DecodedFrame(frameLines, charWidth, charHeight)
  {
    var frame := DecodedFrame(frameLines, charWidth, charHeight);
    forall y | 0 <= y < |grid|
      ensures grid[y] == frame[y]
    {
      forall x | 0 <= x < |grid[y]|
        ensures grid[y][x] == frame[y][x]
      {
        PixelPosition(x, y, charWidth, charHeight);
        assert At(grid, x / 2, y / 4, x % 2, y % 4) == grid[y][x];
      }
    }
  }

  function Min(a: int, b: int): int
  {
    if a < b then a else b
  }

  /** The frames of the lines from `start` on, one per group of charHeight lines. */
  function Frames(lines: seq<string>, charWidth: nat, charHeight: nat, start: nat): seq<seq<seq<bool>>>
    requires charHeight > 0
    decreases |lines| - start
  {
    if start >= |lines| then [] else
      var frame := DecodedFrame(lines[start..Min(start + charHeight, |lines|)], charWidth, charHeight);
      [frame] + Frames(lines, charWidth, charHeight, start + charHeight)
  }

  /** The frames a braille text decodes to: its trimmed lines in groups of charHeight. */
  function BrailleFrames(text: string, charWidth: nat, charHeight: nat): seq<seq<seq<bool>>>
    requires charHeight > 0
  {
    Frames(Text.Split(Text.Trim(text), '\n'), charWidth, charHeight, 0)
  }

  /**
   * brailleToPixels. A zero charHeight is excluded: the loop would never
   * advance, since there is always at least one line.
   */
  method BrailleToPixels(brailleText: string, charWidth: nat, charHeight: nat) returns (framesData: seq<seq<seq<bool>>>)
    requires charHeight > 0
    ensures framesData == BrailleFrames(brailleText, charWidth, charHeight)
  {
    var lines := Text.Split(Text.Trim(brailleText), '\n');
    framesData := DecodeFrames(lines, charWidth, charHeight);
  }

  /** The frame loop of brailleToPixels: one frame per group of charHeight lines. */
  method DecodeFrames(lines: seq<string>, charWidth: nat, charHeight: nat) returns (framesData: seq<seq<seq<bool>>>)
    requires charHeight > 0
    ensures framesData == Frames(lines, charWidth, charHeight, 0)
  {
    framesData := [];
    var frameStart := 0;
    while frameStart < |lines|
      invariant framesData + Frames(lines, charWidth, charHeight, frameStart) == Frames(lines, charWidth, charHeight, 0)
      decreases |lines| - frameStart
    {
      var frameLines := lines[frameStart..Min(frameStart + charHeight, |lines|)];
      var pixels := DecodeFrame(frameLines, charWidth, charHeight);
      FramesStep(lines, charWidth, charHeight, frameStart);
      MoveFront(framesData, pixels, Frames(lines, charWidth, charHeight, frameStart + charHeight),
        Frames(lines, charWidth, charHeight, 0));
      framesData := framesData + [pixels];
      frameStart := frameStart + charHeight;
    }
    FramesEnd(lines, charWidth, charHeight, frameStart);
  }

  lemma FramesStep(lines: seq<string>, charWidth: nat, charHeight: nat, start: nat)
    requires charHeight > 0 && start < |lines|
    ensures Frames(lines, charWidth, charHeight, start)
      == [DecodedFrame(lines[start..Min(start + charHeight, |lines|)], charWidth, charHeight)]
        + Frames(lines, charWidth, charHeight, start + charHeight)
  {
  }

  /** Moving the head of the rest onto the done part keeps the whole. */
  lemma MoveFront<T>(done: seq<T>, x: T, rest: seq<T>, whole: seq<T>)
    requires done + ([x] + rest) == whole
    ensures (done + [x]) + rest == whole
  {
    assert (done + [x]) + rest == done + ([x] + rest);
  }

  lemma FramesEnd(lines: seq<string>, charWidth: nat, charHeight: nat, start: nat)
    requires charHeight > 0 && start >= |lines|
    ensures Frames(lines, charWidth, charHeight, start) == []
  {
  }

  /**
   * There is one frame per started group of charHeight lines, and every
   * frame has charHeight * 4 rows of charWidth * 2 pixels.
   */
  lemma {:induction false} FramesShape(lines: seq<string>, charWidth: nat, charHeight: nat, start: nat)
    requires charHeight > 0 && start <= |lines|
    ensures var frames := Frames(lines, charWidth, charHeight, start);
      |lines| - start <= |frames| * charHeight < |lines| - start + charHeight
      && forall f :: 0 <= f < |frames| ==> Shaped(frames[f], charWidth, charHeight)
    decreases |lines| - start
  {
    if start < |lines| {
      if start + charHeight <= |lines| {
        FramesShape(lines, charWidth, charHeight, start + charHeight);
        var rest := Frames(lines, charWidth, charHeight, start + charHeight);
        assert (|rest| + 1) * charHeight == |rest| * charHeight + charHeight;
      } else {
        assert Frames(lines, charWidth, charHeight, start + charHeight) == [];
      }
    }
  }

  /** A pattern is not whitespace. */
  lemma PatternNotSpace(c: char)
    requires IsPattern(c)
    ensures !Text.IsSpace(c)
  {
  }

  /** Non-empty lines of patterns, joined by newlines, have nothing to trim. */
  lemma JoinedPatternsTrimmed(lines: seq<string>)
    requires |lines| > 0 && AllPatterns(lines)
    requires forall cy :: 0 <= cy < |lines| ==> |lines[cy]| > 0
    ensures Text.Trim(Text.Join(lines, "\n")) == Text.Join(lines, "\n")
  {
    var text := Text.Join(lines, "\n");
    Text.JoinEnds(lines, "\n");
    PatternNotSpace(lines[0][0]);
    PatternNotSpace(lines[|lines| - 1][|lines[|lines| - 1]| - 1]);
    Text.TrimUnchanged(text);
  }

  /** A grid of whole cells is charWidth characters wide and charHeight high. */
  lemma WholeCells(pixels: seq<seq<bool>>, charWidth: nat, charHeight: nat)
    requires charWidth > 0 && charHeight > 0 && Shaped(pixels, charWidth, charHeight)
    ensures Fits(pixels) && |pixels| > 0 && |pixels[0]| > 0
    ensures CharWidth(pixels) == charWidth && CharHeight(pixels) == charHeight
  {
    assert |pixels[0]| == 2 * charWidth;
  }

  /**
   * The text of a grid of whole cells has nothing to trim, and splitting it
   * at newlines gives back its character rows.
   */
  lemma FrameTextLines(pixels: seq<seq<bool>>, charWidth: nat, charHeight: nat)
    requires charWidth > 0 && charHeight > 0 && Shaped(pixels, charWidth, charHeight)
    ensures Fits(pixels)
    ensures Text.Split(Text.Trim(PixelsText(pixels)), '\n') == EncodedLines(pixels, charWidth, charHeight)
  {
    WholeCells(pixels, charWidth, charHeight);
    var lines := EncodedLines(pixels, charWidth, charHeight);
    EncodedLinesArePatterns(pixels, charWidth, charHeight);
    assert PixelsText(pixels) == Text.Join(lines, "\n");
    JoinedPatternsTrimmed(lines);
    SplitPatternLines(lines);
  }

  /** Reading dot (dx, dy) of character (cx, cy) back from a grid's text gives the pixel it was made from. */
  lemma CellReadBack(pixels: seq<seq<bool>>, charWidth: nat, charHeight: nat, cx: nat, cy: nat, dx: nat, dy: nat)
    requires Shaped(pixels, charWidth, charHeight) && cx < charWidth && cy < charHeight && dx < 2 && dy < 4
    ensures Fits(pixels)
    ensures At(pixels, cx, cy, dx, dy) == LitDot(EncodedLines(pixels, charWidth, charHeight), charWidth, cx, cy, dx, dy)
  {
    var lines := EncodedLines(pixels, charWidth, charHeight);
    EncodedLinesArePatterns(pixels, charWidth, charHeight);
    var c := lines[cy][cx];
    assert c == Pattern(Cell(pixels, cx, cy));
    BrailleValueOfPattern(c);
    PatternDots(Cell(pixels, cx, cy));
    CellDot(pixels, cx, cy, dx, dy);
    assert Raised(c, dx, dy) == DotSet(BrailleValue(c), dx, dy);
  }

  /** The character rows of a grid of whole cells decode to that grid. */
  lemma DecodeOwnRows(pixels: seq<seq<bool>>, charWidth: nat, charHeight: nat)
    requires Shaped(pixels, charWidth, charHeight)
    ensures Fits(pixels) && DecodedFrame(EncodedLines(pixels, charWidth, charHeight), charWidth, charHeight) == pixels
  {
    assert Fits(pixels) by {
      if |pixels| > 0 { assert |pixels[0]| == 2 * charWidth; }
    }
    var lines := EncodedLines(pixels, charWidth, charHeight);
    forall cx: nat, cy: nat, dx: nat, dy: nat | cx < charWidth && cy < charHeight && dx < 2 && dy < 4
      ensures At(pixels, cx, cy, dx, dy) == LitDot(lines, charWidth, cx, cy, dx, dy)
    {
      CellReadBack(pixels, charWidth, charHeight, cx, cy, dx, dy);
    }
    GridOfCells(pixels, lines, charWidth, charHeight);
  }

  /** Exactly charHeight lines make one frame. */
  lemma OneFrame(lines: seq<string>, charWidth: nat, charHeight: nat)
    requires |lines| == charHeight > 0
    ensures Frames(lines, charWidth, charHeight, 0) == [DecodedFrame(lines, charWidth, charHeight)]
  {
    FramesStep(lines, charWidth, charHeight, 0);
    FramesEnd(lines, charWidth, charHeight, charHeight);
    assert lines[0..Min(0 + charHeight, |lines|)] == lines;
  }

  /**
   * Decoding the text of a grid whose height is a multiple of 4 and whose
   * width is a multiple of 2 gives back that grid as the only frame.
   */
  lemma RoundTrip(pixels: seq<seq<bool>>, charWidth: nat, charHeight: nat)
    requires charWidth > 0 && charHeight > 0 && Shaped(pixels, charWidth, charHeight)
    ensures Fits(pixels) && BrailleFrames(PixelsText(pixels), charWidth, charHeight) == [pixels]
  {
    FrameTextLines(pixels, charWidth, charHeight);
    OneFrame(EncodedLines(pixels, charWidth, charHeight), charWidth, charHeight);
    DecodeOwnRows(pixels, charWidth, charHeight);
  }
}
