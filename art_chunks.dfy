/**
 * Sprite-sheet reading shared by the Compose canvas and the web page: the
 * first `WxH` pair in a header line (the leftmost match of the pattern
 * `(\d+)x(\d+)`, its digit runs taken greedily) and the cutting of the body
 * lines into frames of `height` lines, blank frames dropped.
 */
module ArtChunks {
  import opened Wrappers
  import opened Text
  import AsciiArtSheet

  /** The separator of the pair: `x`, or also `X` when case is ignored. */
  predicate IsTimes(c: char, ignoreCase: bool)
  {
    c == 'x' || (ignoreCase && c == 'X')
  }

  /** Whether `t` starts with a match of `(\d+)x(\d+)`. */
  predicate PairStart(t: string, ignoreCase: bool)
  {
    var w := LeadingDigits(t);
    w > 0 && w + 1 < |t| && IsTimes(t[w], ignoreCase) && IsDigit(t[w + 1])
  }

  /** The numbers of the two groups of the match at the start of `t`: both digit runs are taken whole. */
  function PairValues(t: string, ignoreCase: bool): (nat, nat)
    requires PairStart(t, ignoreCase)
  {
    var w := LeadingDigits(t);
    var rest := t[w + 1..];
    (DigitsValue(t[..w]), DigitsValue(rest[..LeadingDigits(rest)]))
  }

  /** Whether a match starts at position i. */
  predicate DimsAt(s: string, i: nat, ignoreCase: bool)
  {
    i <= |s| && PairStart(s[i..], ignoreCase)
  }

  /** The numbers of the match at i. */
  function DimsValues(s: string, i: nat, ignoreCase: bool): (nat, nat)
    requires DimsAt(s, i, ignoreCase)
  {
    PairValues(s[i..], ignoreCase)
  }

  /** The position of the leftmost match at or after `from`, if there is one. */
  function FirstDims(s: string, from: nat, ignoreCase: bool): (r: Option<nat>)
    ensures r.Some? ==> from <= r.value && DimsAt(s, r.value, ignoreCase)
    ensures forall j :: from <= j && (r.None? || j < r.value) ==> !DimsAt(s, j, ignoreCase)
    decreases |s| - from
  {
    if from >= |s| then None
    else if DimsAt(s, from, ignoreCase) then Some(from)
    else FirstDims(s, from + 1, ignoreCase)
  }

  /** The two numbers of the leftmost match, if there is one. */
  function FindDims(s: string, ignoreCase: bool): (r: Option<(nat, nat)>)
  {
    match FirstDims(s, 0, ignoreCase)
    case None => None
    case Some(i) => Some(DimsValues(s, i, ignoreCase))
  }

  /** A whole line that is nothing but `digits x digits`. */
  predicate WholeDims(s: string, ignoreCase: bool)
  {
    PairStart(s, ignoreCase) &&
    var w := LeadingDigits(s);
    w + 1 + LeadingDigits(s[w + 1..]) == |s|
  }

  /**
   * The frames of the body lines: consecutive chunks of `height` lines (the
   * last one possibly shorter) joined by line feeds, the blank ones dropped.
   */
  function Chunks(lines: seq<string>, height: nat): (r: seq<string>)
    requires height > 0
    ensures forall k :: 0 <= k < |r| ==> !IsBlank(r[k])
    decreases |lines|
  {
    if |lines| == 0 then [] else
      var n := if height < |lines| then height else |lines|;
      var chunk := Join(lines[..n], "\n");
      var rest := Chunks(lines[n..], height);
      if IsBlank(chunk) then rest else [chunk] + rest
  }

  /**
   * The chunking loop of both readers: starting at 0 and stepping by
   * `height`, each chunk of the next `height` lines (fewer at the end) is
   * kept unless it is blank.
   */
  method ChunkLines(frameLines: seq<string>, height: nat) returns (frames: seq<string>)
    requires height > 0
    ensures frames == Chunks(frameLines, height)
  {
    frames := [];
    var i := 0;
    while i < |frameLines|
      invariant i <= |frameLines| ==> frames + Chunks(frameLines[i..], height) == Chunks(frameLines, height)
      invariant i > |frameLines| ==> frames == Chunks(frameLines, height)
      decreases |frameLines| - i
    {
      var end := if i + height < |frameLines| then i + height else |frameLines|;
      var frameContent := Join(frameLines[i..end], "\n");
      ChunkStep(frameLines, i, height);
      if !IsBlank(frameContent) {
        frames := frames + [frameContent];
      }
      i := i + height;
    }
  }

  /** One turn of the chunking loop: the chunk at i, then the chunks after it. */
  lemma ChunkStep(lines: seq<string>, i: nat, height: nat)
    requires height > 0 && i < |lines|
    ensures var end := if i + height < |lines| then i + height else |lines|;
      var chunk := Join(lines[i..end], "\n");
      && Chunks(lines[i..], height) == (if IsBlank(chunk) then [] else [chunk]) + Chunks(lines[end..], height)
      && (i + height <= |lines| ==> end == i + height)
  {
    var end := if i + height < |lines| then i + height else |lines|;
    var n := if height < |lines| - i then height else |lines| - i;
    assert lines[i..][..n] == lines[i..end];
    assert lines[i..][n..] == lines[end..];
  }

  /** The last part of a join is its end. */
  lemma {:induction false} JoinLast(parts: seq<string>, sep: string)
    requires |parts| > 0
    ensures EndsWith(Join(parts, sep), parts[|parts| - 1])
    decreases |parts|
  {
    if |parts| > 1 {
      JoinLast(parts[1..], sep);
      var tail := Join(parts[1..], sep);
      var last := parts[|parts| - 1];
      assert tail[|tail| - |last|..] == last;
      var whole := parts[0] + sep + tail;
      assert whole[|whole| - |last|..] == tail[|tail| - |last|..];
    }
  }

  /** A frame whose last line ends in a character that is not whitespace is not blank. */
  lemma GroupNotBlank(group: seq<string>, height: nat)
    requires AsciiArtSheet.IsGroup(group, height)
    ensures !IsBlank(Join(group, "\n"))
  {
    var last := group[height - 1];
    JoinLast(group, "\n");
    var j := Join(group, "\n");
    assert j[|j| - |last|..][|last| - 1] == last[|last| - 1];
  }

  /** Text ended by line feeds after each of its lines splits into those lines and one empty piece. */
  lemma {:induction false} SplitBlock(lines: seq<string>)
    requires forall k :: 0 <= k < |lines| ==> '\n' !in lines[k]
    ensures Split(AsciiArtSheet.Block(lines), '\n') == lines + [""]
    decreases |lines|
  {
    if |lines| == 0 {
      SplitNone("", '\n');
    } else {
      SplitBlock(lines[1..]);
      SplitAt(lines[0], AsciiArtSheet.Block(lines[1..]), '\n');
      assert lines[0] + "\n" + AsciiArtSheet.Block(lines[1..]) == lines[0] + ['\n'] + AsciiArtSheet.Block(lines[1..]);
      assert lines == [lines[0]] + lines[1..];
    }
  }

  /** Cutting whole groups of `height` lines, followed by one empty line, gives back the groups' frames. */
  lemma {:induction false} ChunksOfGroups(groups: seq<seq<string>>, height: nat)
    requires height > 0 && forall k :: 0 <= k < |groups| ==> AsciiArtSheet.IsGroup(groups[k], height)
    ensures Chunks(AsciiArtSheet.Flatten(groups) + [""], height) == AsciiArtSheet.FramesOf(groups)
    decreases |groups|
  {
    var lines := AsciiArtSheet.Flatten(groups) + [""];
    if |groups| == 0 {
      assert lines == [""];
      assert Join([""], "\n") == "";
      assert lines[1..] == [];
    } else {
      var g := groups[0];
      assert AsciiArtSheet.IsGroup(g, height);
      ChunksOfGroups(groups[1..], height);
      assert lines == g + (AsciiArtSheet.Flatten(groups[1..]) + [""]);
      assert lines[..height] == g;
      assert lines[height..] == AsciiArtSheet.Flatten(groups[1..]) + [""];
      GroupNotBlank(g, height);
    }
  }

  /**
   * The body of a sheet written as a header line, a line feed and every
   * frame line followed by a line feed splits into the header, the frame
   * lines and one empty piece, and its chunks are exactly the frames.
   */
  lemma SheetLines(header: string, groups: seq<seq<string>>, height: nat)
    requires '\n' !in header && height > 0
    requires forall k :: 0 <= k < |groups| ==> AsciiArtSheet.IsGroup(groups[k], height)
    requires forall k, j :: 0 <= k < |groups| && 0 <= j < |groups[k]| ==> AsciiArtSheet.IsLine(groups[k][j])
    ensures Split(header + "\n" + AsciiArtSheet.Block(AsciiArtSheet.FramesOf(groups)), '\n')
      == [header] + (AsciiArtSheet.Flatten(groups) + [""])
    ensures Chunks(AsciiArtSheet.Flatten(groups) + [""], height) == AsciiArtSheet.FramesOf(groups)
  {
    assert forall k :: 0 <= k < |groups| ==> |groups[k]| > 0;
    AsciiArtSheet.BlockOfFrames(groups);
    var flat := AsciiArtSheet.Flatten(groups);
    AsciiArtSheet.FlattenLines(groups);
    SplitBlock(flat);
    assert header + "\n" + AsciiArtSheet.Block(flat) == header + ['\n'] + AsciiArtSheet.Block(flat);
    SplitAt(header, AsciiArtSheet.Block(flat), '\n');
    ChunksOfGroups(groups, height);
  }

  /** No match starts at a character that is not a digit. */
  lemma NoDimsAtNonDigit(s: string, i: nat, ignoreCase: bool)
    requires i < |s| && !IsDigit(s[i])
    ensures !DimsAt(s, i, ignoreCase)
  {
    assert s[i..][0] == s[i];
  }

  /** Before text with no digit in it no match starts, so the search goes on after it. */
  lemma SkipNonDigits(p: string, rest: string, ignoreCase: bool)
    requires forall j :: 0 <= j < |p| ==> !IsDigit(p[j])
    ensures FirstDims(p + rest, 0, ignoreCase) == FirstDims(p + rest, |p|, ignoreCase)
  {
    var s := p + rest;
    forall j | 0 <= j < |p|
      ensures !DimsAt(s, j, ignoreCase)
    {
      assert s[j] == p[j];
      NoDimsAtNonDigit(s, j, ignoreCase);
    }
    FirstDimsSkips(s, 0, |p|, ignoreCase);
  }

  /** A digit run followed by a non-digit or the end is the leading run, and the rest follows it. */
  lemma RunThen(digits: string, rest: string)
    requires AllDigits(digits) && (|rest| > 0 ==> !IsDigit(rest[0]))
    ensures LeadingDigits(digits + rest) == |digits|
    ensures (digits + rest)[..|digits|] == digits && (digits + rest)[|digits|..] == rest
  {
    LeadingDigitsConcat(digits, rest);
  }

  /** A pair of digit runs around `x`, followed by a non-digit or the end, is a match with those numbers. */
  lemma PairOf(ws: string, hs: string, tail: string, ignoreCase: bool)
    requires |ws| > 0 && AllDigits(ws) && |hs| > 0 && AllDigits(hs)
    requires |tail| > 0 ==> !IsDigit(tail[0])
    ensures PairStart(ws + ("x" + hs + tail), ignoreCase)
    ensures PairValues(ws + ("x" + hs + tail), ignoreCase) == (DigitsValue(ws), DigitsValue(hs))
  {
    var ht := hs + tail;
    var u := "x" + hs + tail;
    assert u == ['x'] + ht;
    RunThen(ws, u);
    RunThen(hs, tail);
    var t := ws + u;
    assert t[|ws| + 1..] == u[1..] == ht;
  }

  /**
   * The header line `Ascii Art Animation, WxH` followed by a tail that does
   * not continue the height's digits: the leftmost match is the pair, in
   * either case mode, and its numbers are W and H.
   */
  lemma StandardHeaderDims(w: nat, h: nat, tail: string, ignoreCase: bool)
    requires |tail| > 0 ==> !IsDigit(tail[0])
    ensures var s := AsciiArtSheet.HeaderText(w, h) + tail;
      && FirstDims(s, 0, ignoreCase) == Some(|AsciiArtSheet.HeaderPrefix|)
      && DimsValues(s, |AsciiArtSheet.HeaderPrefix|, ignoreCase) == (w, h)
  {
    var p := AsciiArtSheet.HeaderPrefix;
    var ws, hs := NatToString(w), NatToString(h);
    var s := AsciiArtSheet.HeaderText(w, h) + tail;
    var t := ws + ("x" + hs + tail);
    assert s == p + t;
    assert s[|p|..] == t;
    PrefixHasNoDigit();
    SkipNonDigits(p, t, ignoreCase);
    PairOf(ws, hs, tail, ignoreCase);
    NatToStringValue(w);
    NatToStringValue(h);
  }

  /** The header prefix `Ascii Art Animation, ` holds no digit. */
  lemma PrefixHasNoDigit()
    ensures forall j :: 0 <= j < |AsciiArtSheet.HeaderPrefix| ==> !IsDigit(AsciiArtSheet.HeaderPrefix[j])
  {
  }

  /** A search that finds no match before `to` finds what a search from `to` finds. */
  lemma {:induction false} FirstDimsSkips(s: string, from: nat, to: nat, ignoreCase: bool)
    requires from <= to <= |s|
    requires forall j :: from <= j < to ==> !DimsAt(s, j, ignoreCase)
    ensures FirstDims(s, from, ignoreCase) == FirstDims(s, to, ignoreCase)
    decreases (to as int) - (from as int)
  {
    if from < to {
      FirstDimsSkips(s, from + 1, to, ignoreCase);
    }
  }
}
