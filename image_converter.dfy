/**
 * The pixel stages of the Rust image converter: grey conversion with a
 * transparency rule, black-and-white thresholding, and the encoding of a
 * black-and-white image as braille text, one character per 2x4 block of
 * pixels. Images are fixed-size buffers indexed [y, x].
 */
module ImageConverter {
  import opened BraillePatterns
  import Text

  type Byte = x: int | 0 <= x < 0x100

  /** One RGBA pixel. */
  datatype Rgba = Rgba(r: Byte, g: Byte, b: Byte, a: Byte)

  /** The grey value of one pixel: a fixed value when mostly transparent, else the integer mean of its colours. */
  function Grey(p: Rgba, transparencyAsBlack: bool): (v: Byte)
    ensures p.a < 128 ==> v == (if transparencyAsBlack then 0 else 255)
    ensures p.a >= 128 ==> 3 * v <= p.r + p.g + p.b < 3 * v + 3
  {
    if p.a < 128 then (if transparencyAsBlack then 0 else 255) else (p.r + p.g + p.b) / 3
  }

  /** A thresholded value is black exactly when the input lies below the threshold, and white otherwise. */
  function Binarize(v: Byte, threshold: Byte): (w: Byte)
    ensures w == 0 || w == 255
    ensures w == 0 <==> v < threshold
  {
    if v < threshold then 0 else 255
  }

  /** handle_transparency: a new grey image of the same size, pixel by pixel. */
  method HandleTransparency(img: array2<Rgba>, transparencyAsBlack: bool) returns (result: array2<Byte>)
    ensures fresh(result)
    ensures result.Length0 == img.Length0 && result.Length1 == img.Length1
    ensures forall y, x :: 0 <= y < result.Length0 && 0 <= x < result.Length1 ==>
      result[y, x] == Grey(img[y, x], transparencyAsBlack)
  {
    result := new Byte[img.Length0, img.Length1];
    var transparentValue: Byte := if transparencyAsBlack then 0 else 255;
    var y := 0;
    while y < img.Length0
      invariant 0 <= y <= img.Length0
      invariant forall y', x' :: 0 <= y' < y && 0 <= x' < img.Length1 ==>
        result[y', x'] == Grey(img[y', x'], transparencyAsBlack)
    {
      var x := 0;
      while x < img.Length1
        invariant 0 <= x <= img.Length1
        invariant forall y', x' :: 0 <= y' < y && 0 <= x' < img.Length1 ==>
          result[y', x'] == Grey(img[y', x'], transparencyAsBlack)
        invariant forall x' :: 0 <= x' < x ==> result[y, x'] == Grey(img[y, x'], transparencyAsBlack)
      {
        var pixel := img[y, x];
        if pixel.a < 128 {
          result[y, x] := transparentValue;
        } else {
          result[y, x] := (pixel.r + pixel.g + pixel.b) / 3;
        }
        x := x + 1;
      }
      y := y + 1;
    }
  }

  /** apply_threshold: a new black-and-white image of the same size. */
  method ApplyThreshold(img: array2<Byte>, threshold: Byte) returns (result: array2<Byte>)
    ensures fresh(result)
    ensures result.Length0 == img.Length0 && result.Length1 == img.Length1
    ensures forall y, x :: 0 <= y < result.Length0 && 0 <= x < result.Length1 ==>
      result[y, x] == Binarize(img[y, x], threshold)
  {
    result := new Byte[img.Length0, img.Length1];
    var y := 0;
    while y < img.Length0
      invariant 0 <= y <= img.Length0
      invariant forall y', x' :: 0 <= y' < y && 0 <= x' < img.Length1 ==>
        result[y', x'] == Binarize(img[y', x'], threshold)
    {
      var x := 0;
      while x < img.Length1
        invariant 0 <= x <= img.Length1
        invariant forall y', x' :: 0 <= y' < y && 0 <= x' < img.Length1 ==>
          result[y', x'] == Binarize(img[y', x'], threshold)
        invariant forall x' :: 0 <= x' < x ==> result[y, x'] == Binarize(img[y, x'], threshold)
      {
        result[y, x] := if img[y, x] < threshold then 0 else 255;
        x := x + 1;
      }
      y := y + 1;
    }
  }

  /** DOT_VALUES: the offset bit of each cell index dy * 2 + dx. */
  const DotValues: seq<bv32> := [0x01, 0x08, 0x02, 0x10, 0x04, 0x20, 0x40, 0x80]

  /** A code that is `Base` with a cell's mask is that cell's pattern. */
  lemma CodeIsPattern(dots: seq<bool>, code: bv32)
    requires |dots| == 8 && code == 0x2800 | Mask(dots, 8)
    ensures Base <= code as int < Base + 0x100
    ensures (code as int) as char == Pattern(dots)
  {
    assert code as int == Base + Mask(dots, 8) as int;
  }

  /** Adding the bit of dot i when it is set extends the code by one dot. */
  lemma CodeStep(dots: seq<bool>, i: nat, code: bv32)
    requires |dots| == 8 && i < 8 && code == 0x2800 | Mask(dots, i)
    ensures (if dots[i] then code | DotValues[i] else code) == 0x2800 | Mask(dots, i + 1)
  {
    assert DotValues[i] == CellBits[i];
  }

  /** dots_to_braille: the pattern whose raised dots are the set entries of `dots`. */
  method DotsToBraille(dots: seq<bool>) returns (c: char)
    requires |dots| == 8
    ensures c == Pattern(dots)
  {
    var code: bv32 := 0x2800;
    for i := 0 to 8
      invariant code == 0x2800 | Mask(dots, i)
    {
      CodeStep(dots, i, code);
      if dots[i] {
        code := code | DotValues[i];
      }
    }
    // The code always lies inside the block, so `char::from_u32` never
    // falls back to U+2800.
    CodeIsPattern(dots, code);
    c := (code as int) as char;
  }

  /** Whether the pixel at (x, y) exists and is black. */
  predicate Ink(img: array2<Byte>, x: nat, y: nat)
    reads img
  {
    y < img.Length0 && x < img.Length1 && img[y, x] == 0
  }

  /** The dots of the character cell (cx, cy): pixels 2cx..2cx+1 by 4cy..4cy+3. */
  function CellAt(img: array2<Byte>, cx: nat, cy: nat): (cell: seq<bool>)
    reads img
    ensures |cell| == 8
  {
    seq(8, i requires 0 <= i < 8 reads img => Ink(img, 2 * cx + i % 2, 4 * cy + i / 2))
  }

  /** Dot (dx, dy) of a cell is the pixel at the matching offset. */
  lemma CellAtDot(img: array2<Byte>, cx: nat, cy: nat, dx: nat, dy: nat)
    requires dx < 2 && dy < 4
    ensures CellAt(img, cx, cy)[dy * 2 + dx] == Ink(img, 2 * cx + dx, 4 * cy + dy)
  {
  }

  /** The first n characters of character row cy. */
  function RowText(img: array2<Byte>, cy: nat, n: nat): (row: string)
    reads img
    ensures |row| == n
    ensures forall cx :: 0 <= cx < n ==> row[cx] == Pattern(CellAt(img, cx, cy))
  {
    if n == 0 then "" else RowText(img, cy, n - 1) + [Pattern(CellAt(img, n - 1, cy))]
  }

  /** The first n character rows, each `width` characters long. */
  function Rows(img: array2<Byte>, width: nat, n: nat): (rows: seq<string>)
    reads img
    ensures |rows| == n
    ensures forall cy :: 0 <= cy < n ==> rows[cy] == RowText(img, cy, width)
  {
    if n == 0 then [] else Rows(img, width, n - 1) + [RowText(img, n - 1, width)]
  }

  /** The braille text of an image: `height` rows joined by newlines, with no trailing newline. */
  function BrailleText(img: array2<Byte>, width: nat, height: nat): string
    reads img
  {
    Text.Join(Rows(img, width, height), "\n")
  }

  /** The dots of one cell, read pixel by pixel as the converter does. */
  method CellDots(img: array2<Byte>, cx: nat, cy: nat) returns (dots: seq<bool>)
    ensures dots == CellAt(img, cx, cy)
  {
    dots := [false, false, false, false, false, false, false, false];
    for dy := 0 to 4
      invariant |dots| == 8
      invariant forall i :: 0 <= i < dy * 2 ==> dots[i] == Ink(img, 2 * cx + i % 2, 4 * cy + i / 2)
      invariant forall i :: dy * 2 <= i < 8 ==> !dots[i]
    {
      for dx := 0 to 2
        invariant |dots| == 8
        invariant forall i :: 0 <= i < dy * 2 + dx ==> dots[i] == Ink(img, 2 * cx + i % 2, 4 * cy + i / 2)
        invariant forall i :: dy * 2 + dx <= i < 8 ==> !dots[i]
      {
        var x := 2 * cx + dx;
        var y := 4 * cy + dy;
        if x < img.Length1 && y < img.Length0 {
          dots := dots[dy * 2 + dx := img[y, x] == 0];
        }
      }
    }
  }

  /** One row of characters, cell by cell. */
  method RowChars(img: array2<Byte>, cy: nat, charWidth: nat) returns (row: string)
    ensures row == RowText(img, cy, charWidth)
  {
    row := "";
    var cx := 0;
    while cx < charWidth
      invariant cx <= charWidth
      invariant row == RowText(img, cy, cx)
    {
      var dots := CellDots(img, cx, cy);
      var c := DotsToBraille(dots);
      row := row + [c];
      cx := cx + 1;
    }
  }

  /** image_to_braille_string. */
  method ImageToBrailleString(img: array2<Byte>, charWidth: nat, charHeight: nat) returns (r: string)
    ensures r == BrailleText(img, charWidth, charHeight)
  {
    r := "";
    var cy := 0;
    while cy < charHeight
      invariant cy <= charHeight
      invariant r == Text.Join(Rows(img, charWidth, cy), "\n") + (if 0 < cy < charHeight then "\n" else "")
    {
      var row := RowChars(img, cy, charWidth);
      r := r + row;
      Text.JoinSnoc(Rows(img, charWidth, cy), RowText(img, cy, charWidth), "\n");
      assert Rows(img, charWidth, cy + 1) == Rows(img, charWidth, cy) + [RowText(img, cy, charWidth)];
      if cy < charHeight - 1 {
        r := r + "\n";
      }
      cy := cy + 1;
    }
  }

  /**
   * The braille text has `height` lines of `width` characters (none when
   * `height` is 0), and each line is the row of the same index.
   */
  lemma BrailleLines(img: array2<Byte>, width: nat, height: nat)
    ensures height == 0 ==> BrailleText(img, width, height) == ""
    ensures height > 0 ==> Text.Split(BrailleText(img, width, height), '\n') == Rows(img, width, height)
    ensures forall cy :: 0 <= cy < height ==> |Rows(img, width, height)[cy]| == width
  {
    var rows := Rows(img, width, height);
    if height > 0 {
      forall k | 0 <= k < |rows|
        ensures '\n' !in rows[k]
      {
        assert forall cx :: 0 <= cx < |rows[k]| ==> IsPattern(rows[k][cx]);
      }
      Text.SplitJoin(rows, '\n');
    }
  }

  /**
   * Dot (dx, dy) of character (cx, cy) is raised exactly when pixel
   * (2cx + dx, 4cy + dy) lies inside the image and is black.
   */
  lemma BrailleDots(img: array2<Byte>, width: nat, height: nat, cx: nat, cy: nat, dx: nat, dy: nat)
    requires cx < width && cy < height && dx < 2 && dy < 4
    ensures IsPattern(Rows(img, width, height)[cy][cx])
    ensures Raised(Rows(img, width, height)[cy][cx], dx, dy) <==> Ink(img, 2 * cx + dx, 4 * cy + dy)
  {
    PatternDots(CellAt(img, cx, cy));
    CellAtDot(img, cx, cy, dx, dy);
  }
}
