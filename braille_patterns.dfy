/**
 * The Braille Patterns block of the Unicode Standard (U+2800..U+28FF).
 * A pattern is `Base` plus an 8-bit offset whose bit n - 1 raises dot n;
 * the dots of a cell are numbered 1, 2, 3, 7 down the left column and
 * 4, 5, 6, 8 down the right one.
 */
module BraillePatterns {

  /** The first code point of the block: the pattern with no raised dot. */
  const Base: int := 0x2800

  /** The standard's number of the dot in column dx, row dy of a 2x4 cell. */
  function DotNumber(dx: nat, dy: nat): (n: nat)
    requires dx < 2 && dy < 4
    ensures 1 <= n <= 8
  {
    if dy == 3 then 7 + dx else 1 + 3 * dx + dy
  }

  /** The offset bit that raises dot n. */
  function DotBit(n: nat): bv32
    requires 1 <= n <= 8
  {
    (1 as bv32) << (n - 1)
  }

  /**
   * A cell lists the dots of a 2x4 block row by row, dot (dx, dy) at index
   * dy * 2 + dx; `CellBits` holds the offset bit of each index.
   */
  const CellBits: seq<bv32> := [0x01, 0x08, 0x02, 0x10, 0x04, 0x20, 0x40, 0x80]

  /** The cell-order table agrees with the standard's dot numbering. */
  lemma CellBitsFollowStandard(dx: nat, dy: nat)
    requires dx < 2 && dy < 4
    ensures CellBits[dy * 2 + dx] == DotBit(DotNumber(dx, dy))
  {
  }

  /** Each cell index owns a single bit of the low byte. */
  lemma CellBitsDisjoint(i: nat, j: nat)
    requires i < 8 && j < 8
    ensures CellBits[i] != 0 && CellBits[i] <= 0x80
    ensures i != j ==> CellBits[i] & CellBits[j] == 0
  {
  }

  /** Whether `bit` is set in `v`. */
  predicate HasBit(v: bv32, bit: bv32)
  {
    v & bit != 0
  }

  predicate IsPattern(c: char)
  {
    Base <= c as int < Base + 0x100
  }

  /** The offset of a pattern from the start of the block. */
  function Offset(c: char): bv32
    requires IsPattern(c)
  {
    (c as int - Base) as bv32
  }

  /** Whether the pattern `c` raises the dot in column dx, row dy. */
  predicate Raised(c: char, dx: nat, dy: nat)
    requires IsPattern(c) && dx < 2 && dy < 4
  {
    HasBit(Offset(c), CellBits[dy * 2 + dx])
  }

  /** The offset bits of the first n dots of a cell. */
  function Mask(cell: seq<bool>, n: nat): (m: bv32)
    requires n <= |cell| == 8
    ensures m <= 0xFF
  {
    if n == 0 then 0 else
      var m := Mask(cell, n - 1);
      AddBit(m, cell[n - 1], n - 1, n - 1);
      if cell[n - 1] then m | CellBits[n - 1] else m
  }

  /** Adding the bit of index j when b holds sets bit i exactly when it was set or i is j. */
  lemma AddBit(v: bv32, b: bool, j: nat, i: nat)
    requires v <= 0xFF && i < 8 && j < 8
    ensures (if b then v | CellBits[j] else v) <= 0xFF
    ensures HasBit(if b then v | CellBits[j] else v, CellBits[i]) <==> HasBit(v, CellBits[i]) || (i == j && b)
  {
    CellBitsDisjoint(i, j);
    CellBitsDisjoint(j, j);
  }

  /** The mask of the first n dots has exactly the bits of the raised ones among them. */
  lemma {:induction false} MaskBits(cell: seq<bool>, n: nat, i: nat)
    requires n <= |cell| == 8 && i < 8
    ensures HasBit(Mask(cell, n), CellBits[i]) <==> i < n && cell[i]
  {
    if n > 0 {
      MaskBits(cell, n - 1, i);
      AddBit(Mask(cell, n - 1), cell[n - 1], n - 1, i);
    }
  }

  /** A mask within the low byte survives the trip to an integer and back, so `0x2800 | mask` stays below U+2900. */
  lemma OffsetRoundTrip(m: bv32)
    requires m <= 0xFF
    ensures (m as int) as bv32 == m && m as int < 0x100
  {
  }

  /** The pattern of a cell. */
  function Pattern(cell: seq<bool>): (c: char)
    requires |cell| == 8
    ensures IsPattern(c) && Offset(c) == Mask(cell, 8)
  {
    OffsetRoundTrip(Mask(cell, 8));
    (Base + Mask(cell, 8) as int) as char
  }

  /** A pattern raises exactly the dots of its cell. */
  lemma PatternDots(cell: seq<bool>)
    requires |cell| == 8
    ensures forall dx: nat, dy: nat :: dx < 2 && dy < 4 ==> (Raised(Pattern(cell), dx, dy) <==> cell[dy * 2 + dx])
  {
    forall dx: nat, dy: nat | dx < 2 && dy < 4
      ensures Raised(Pattern(cell), dx, dy) <==> cell[dy * 2 + dx]
    {
      MaskBits(cell, 8, dy * 2 + dx);
    }
  }

  /** The empty cell is U+2800 and the full cell U+28FF. */
  lemma BlankAndFullPatterns()
    ensures Pattern([false, false, false, false, false, false, false, false]) == '\U{2800}'
    ensures Pattern([true, true, true, true, true, true, true, true]) == '\U{28FF}'
  {
    var full := [true, true, true, true, true, true, true, true];
    assert Mask(full, 8) == 0xFF;
  }
}
