/**
 * The content file an author uploads: a `--- MIDI ---` section holding the
 * composition, then an `--- ART ---` section holding a sprite sheet whose
 * header line may name a frame rate.
 */
module ContentFile {
  import opened Wrappers
  import opened Text

  const MidiMarker := "--- MIDI ---"
  const ArtMarker := "--- ART ---"
  const HeaderPrefix := "Ascii Art Animation, "
  const HeaderStart := "Ascii Art Animation"
  const DefaultFps := 10.0

  /** A parsed content file; the frame rate is read as an exact real. */
  datatype Content = Content(midiComposition: string, art: string, fps: real)

  datatype FormatProblem = MidiAfterArt | EmptyMidi | EmptyArt | NoArtHeader | BadArtHeader

  datatype ContentError = MissingMidiSection | MissingArtSection | InvalidFormat(problem: FormatProblem)

  function Reason(p: FormatProblem): string
  {
    match p
    case MidiAfterArt => "MIDI section must come before ART section"
    case EmptyMidi => "MIDI section cannot be empty"
    case EmptyArt => "ART section cannot be empty"
    case NoArtHeader => "ART section has no header"
    case BadArtHeader => "ART section must start with 'Ascii Art Animation' header"
  }

  /** The first line that trims to `marker`. */
  function Position(lines: seq<string>, marker: string): (r: Option<nat>)
    ensures r.Some? ==> r.value < |lines| && Trim(lines[r.value]) == marker
    ensures r.Some? ==> forall j :: 0 <= j < r.value ==> Trim(lines[j]) != marker
    ensures r.None? ==> forall j :: 0 <= j < |lines| ==> Trim(lines[j]) != marker
  {
    if |lines| == 0 then None
    else if Trim(lines[0]) == marker then Some(0)
    else
      match Position(lines[1..], marker)
      case None => None
      case Some(i) => Some(i + 1)
  }

  /** The trimmed lines that are not empty after trimming, in order. */
  function MidiWords(lines: seq<string>): (r: seq<string>)
    ensures |r| <= |lines|
    ensures forall k :: 0 <= k < |r| ==> |r[k]| > 0
  {
    if |lines| == 0 then []
    else
      var rest := MidiWords(lines[1..]);
      if |Trim(lines[0])| == 0 then rest else [Trim(lines[0])] + rest
  }

  /** No MIDI words are left exactly when every line is blank. */
  lemma {:induction false} MidiWordsBlank(lines: seq<string>)
    ensures |MidiWords(lines)| == 0 <==> forall j :: 0 <= j < |lines| ==> IsBlank(lines[j])
  {
    if |lines| > 0 {
      MidiWordsBlank(lines[1..]);
      TrimBlank(lines[0]);
      if |Trim(lines[0])| == 0 {
        forall j | 0 <= j < |lines| ensures IsBlank(lines[j]) <==> (j == 0 || IsBlank(lines[1..][j - 1])) {
        }
      }
    }
  }

  /** Lines that are already trimmed and not empty are kept as they are. */
  lemma {:induction false} MidiWordsOfWords(lines: seq<string>)
    requires forall k :: 0 <= k < |lines| ==> |lines[k]| > 0 && Trim(lines[k]) == lines[k]
    ensures MidiWords(lines) == lines
  {
    if |lines| > 0 {
      MidiWordsOfWords(lines[1..]);
    }
  }

  /**
   * parse_fps_from_header: the number written before "fps" in the second
   * comma-separated field after the header prefix, or 10 when there is none.
   */
  function FpsFromHeader(header: string): real
  {
    FpsOfFields(Trim(TrimStartMatches(header, HeaderPrefix)))
  }

  /** The frame rate named by the comma-separated fields of a header. */
  function FpsOfFields(after: string): real
  {
    var parts := Split(after, ',');
    if |parts| < 2 then DefaultFps
    else
      var field := Trim(parts[1]);
      match Find(field, "fps")
      case None => DefaultFps
      case Some(i) =>
        match ParseDecimal(Trim(field[..i]))
        case None => DefaultFps
        case Some(fps) => fps
  }

  /** A header with no comma after its prefix names no frame rate, so the default is used. */
  lemma FpsDefault(header: string)
    requires ',' !in Trim(TrimStartMatches(header, HeaderPrefix))
    ensures FpsFromHeader(header) == DefaultFps
  {
    SplitNone(Trim(TrimStartMatches(header, HeaderPrefix)), ',');
  }

  /** The field text `n fps` after a space. */
  lemma FpsField(digits: string)
    requires |digits| > 0 && AllDigits(digits)
    ensures ',' !in " " + digits + "fps"
    ensures Trim(" " + digits + "fps") == digits + "fps"
  {
    var field := digits + "fps";
    assert " " + digits + "fps" == " " + field;
    assert forall k :: 0 <= k < |digits| ==> field[k] == digits[k];
    assert (" " + field)[1..] == field;
    assert !IsSpace(field[0]);
    assert TrimStart(" " + field) == field;
    assert field[|field| - 1] == 's';
  }

  /** `<dims>, <n>fps` names a frame rate of n. */
  lemma FpsOfDimsAndRate(dims: string, digits: string)
    requires ',' !in dims
    requires |digits| > 0 && AllDigits(digits)
    ensures FpsOfFields(dims + ", " + digits + "fps") == DigitsValue(digits) as real
  {
    var field := digits + "fps";
    FpsField(digits);
    assert dims + ", " + digits + "fps" == dims + [','] + (" " + digits + "fps");
    SplitAt(dims, " " + digits + "fps", ',');
    SplitNone(" " + digits + "fps", ',');
    FindAfterDigits(digits, "fps");
    assert field[..|digits|] == digits;
    assert !IsSpace(digits[0]) && !IsSpace(digits[|digits| - 1]);
    TrimUnchanged(digits);
  }

  /** `Ascii Art Animation, <dims>, <n>fps` has a frame rate of n. */
  lemma FpsOfHeader(dims: string, digits: string)
    requires |dims| > 0 && dims[0] != 'A' && !IsSpace(dims[0]) && ',' !in dims
    requires |digits| > 0 && AllDigits(digits)
    ensures FpsFromHeader(HeaderPrefix + (dims + ", " + digits + "fps")) == DigitsValue(digits) as real
  {
    var after := dims + ", " + digits + "fps";
    StripPrefix(HeaderPrefix, after);
    assert !IsSpace(after[0]) && !IsSpace(after[|after| - 1]);
    TrimUnchanged(after);
    FpsOfDimsAndRate(dims, digits);
  }

  /** A plain decimal holds no comma, no `f` and no whitespace. */
  lemma PlainDecimalChars(t: string)
    requires PlainDecimal(t)
    ensures ',' !in t && 'f' !in t
    ensures forall i :: 0 <= i < |t| ==> !IsSpace(t[i])
  {
    forall i | 0 <= i < |t| ensures t[i] != ',' && t[i] != 'f' && !IsSpace(t[i]) {
      assert IsDigit(t[i]) || t[i] == '.';
    }
  }

  /** A field made of one space and a word with no whitespace at its ends trims to the word. */
  lemma SpacedWord(w: string)
    requires |w| > 0 && !IsSpace(w[0]) && !IsSpace(w[|w| - 1])
    ensures Trim([' '] + w) == w
  {
    assert ([' '] + w)[1..] == w;
    assert TrimStart([' '] + w) == TrimStart(w);
    TrimUnchanged(w);
  }

  /** The field ` <t>fps` of a plain decimal `t`: no comma, trims to `<t>fps`, and "fps" follows `t`. */
  lemma RateField(t: string)
    requires PlainDecimal(t)
    ensures ',' !in " " + t + "fps"
    ensures Trim(" " + t + "fps") == t + "fps"
    ensures Find(t + "fps", "fps") == Some(|t|) && (t + "fps")[..|t|] == t
    ensures Trim(t) == t
  {
    var field := t + "fps";
    PlainDecimalChars(t);
    assert " " + t + "fps" == [' '] + field;
    assert ',' !in field;
    SpacedWord(field);
    FindAfter(t, "fps");
    assert field[..|t|] == t;
    TrimUnchanged(t);
  }

  /** `<dims>, <t>fps` names the rate that a plain decimal `t` reads as. */
  lemma FpsOfDimsAndText(dims: string, t: string, v: real)
    requires ',' !in dims
    requires PlainDecimal(t) && ParseDecimal(t) == Some(v)
    ensures FpsOfFields(dims + ", " + t + "fps") == v
  {
    var field := " " + t + "fps";
    RateField(t);
    assert dims + ", " + t + "fps" == dims + [','] + field;
    SplitAt(dims, field, ',');
    SplitNone(field, ',');
  }

  /** `Ascii Art Animation, <dims>, <t>fps` has the rate that a plain decimal `t` reads as. */
  lemma FpsOfHeaderText(dims: string, t: string, v: real)
    requires |dims| > 0 && dims[0] != 'A' && !IsSpace(dims[0]) && ',' !in dims
    requires PlainDecimal(t) && ParseDecimal(t) == Some(v)
    ensures FpsFromHeader(HeaderPrefix + (dims + ", " + t + "fps")) == v
  {
    var after := dims + ", " + t + "fps";
    StripPrefix(HeaderPrefix, after);
    assert !IsSpace(after[0]) && !IsSpace(after[|after| - 1]);
    TrimUnchanged(after);
    FpsOfDimsAndText(dims, t, v);
  }

  /**
   * parse_content, on the text's lines: the MIDI section is the first line
   * that trims to the MIDI marker and must come before the first ART marker;
   * its non-blank lines, trimmed and joined by a space, are the composition;
   * everything after the ART marker, joined by line feeds, is the art.
   */
  function ParseLines(lines: seq<string>): Result<Content, ContentError>
  {
    Sections(lines, Position(lines, MidiMarker), Position(lines, ArtMarker))
  }

  /** The sections between and after the marker lines found at `midiAt` and `artAt`. */
  function Sections(lines: seq<string>, midiAt: Option<nat>, artAt: Option<nat>): (r: Result<Content, ContentError>)
    requires midiAt.Some? ==> midiAt.value < |lines|
    requires artAt.Some? ==> artAt.value < |lines|
    ensures r == Failure(MissingMidiSection) <==> midiAt.None?
    ensures r == Failure(MissingArtSection) <==> midiAt.Some? && artAt.None?
    ensures r.Success? ==> |r.value.midiComposition| > 0 && StartsWith(r.value.art, HeaderStart)
  {
    match midiAt
    case None => Failure(MissingMidiSection)
    case Some(m) =>
      match artAt
      case None => Failure(MissingArtSection)
      case Some(a) =>
        if m >= a then Failure(InvalidFormat(MidiAfterArt))
        else
          var midi := Join(MidiWords(lines[m + 1..a]), " ");
          if |midi| == 0 then Failure(InvalidFormat(EmptyMidi))
          else
            var artLines := lines[a + 1..];
            var art := Join(artLines, "\n");
            if |art| == 0 then Failure(InvalidFormat(EmptyArt))
            else if |artLines| == 0 then Failure(InvalidFormat(NoArtHeader))
            else if !StartsWith(artLines[0], HeaderStart) then Failure(InvalidFormat(BadArtHeader))
            else
              assert art[..|artLines[0]|] == artLines[0] by { JoinFirst(artLines, "\n"); }
              Success(Content(midi, art, FpsFromHeader(artLines[0])))
  }

  /**
   * A missing MIDI marker is reported first, whether or not the ART marker
   * is there; a missing ART marker is reported only when the MIDI marker is.
   */
  lemma MissingSections(lines: seq<string>)
    ensures ParseLines(lines) == Failure(MissingMidiSection) <==>
      forall j :: 0 <= j < |lines| ==> Trim(lines[j]) != MidiMarker
    ensures ParseLines(lines) == Failure(MissingArtSection) <==>
      (exists j :: 0 <= j < |lines| && Trim(lines[j]) == MidiMarker) &&
      forall j :: 0 <= j < |lines| ==> Trim(lines[j]) != ArtMarker
  {
    var mp := Position(lines, MidiMarker);
    if mp.Some? {
      assert Trim(lines[mp.value]) == MidiMarker;
    }
  }

  /** A join starts with its first part. */
  lemma JoinFirst(parts: seq<string>, sep: string)
    requires |parts| > 0
    ensures |parts[0]| <= |Join(parts, sep)| && Join(parts, sep)[..|parts[0]|] == parts[0]
  {
  }

  /** parse_content: the content of a file, read line by line. */
  function ParseContent(content: string): Result<Content, ContentError>
  {
    ParseLines(Lines(content))
  }

  /**
   * A MIDI marker, trimmed non-empty composition lines that are not the ART
   * marker, the ART marker and art starting with the header parse back into
   * the composition joined by spaces, the art joined by line feeds and the
   * header's frame rate.
   */
  lemma SectionsRoundTrip(midi: seq<string>, art: seq<string>)
    requires |midi| > 0 && |art| > 0
    requires forall k :: 0 <= k < |midi| ==> |midi[k]| > 0 && Trim(midi[k]) == midi[k] && midi[k] != ArtMarker
    requires StartsWith(art[0], HeaderStart)
    ensures ParseLines([MidiMarker] + midi + [ArtMarker] + art) ==
      Success(Content(Join(midi, " "), Join(art, "\n"), FpsFromHeader(art[0])))
  {
    var pre := [MidiMarker] + midi;
    var post := [ArtMarker] + art;
    var lines := pre + post;
    assert lines == [MidiMarker] + midi + [ArtMarker] + art;
    assert Trim(MidiMarker) == MidiMarker;
    assert Trim(ArtMarker) == ArtMarker;
    assert Position(lines, MidiMarker) == Some(0);
    assert forall j :: 0 <= j < |pre| ==> Trim(pre[j]) != ArtMarker by {
      forall j | 0 <= j < |pre| ensures Trim(pre[j]) != ArtMarker {
        if j > 0 { assert pre[j] == midi[j - 1]; }
      }
    }
    PositionAfter(pre, post, ArtMarker);
    SectionsOf(lines, midi, art);
  }

  /** The sections between markers at 0 and |midi| + 1, when the composition lines are trimmed words. */
  lemma SectionsOf(lines: seq<string>, midi: seq<string>, art: seq<string>)
    requires lines == [MidiMarker] + midi + [ArtMarker] + art
    requires |midi| > 0 && |art| > 0 && StartsWith(art[0], HeaderStart)
    requires forall k :: 0 <= k < |midi| ==> |midi[k]| > 0 && Trim(midi[k]) == midi[k]
    ensures Sections(lines, Some(0), Some(|midi| + 1)) ==
      Success(Content(Join(midi, " "), Join(art, "\n"), FpsFromHeader(art[0])))
  {
    var a := |midi| + 1;
    assert lines[1..a] == midi;
    assert lines[a + 1..] == art;
    MidiWordsOfWords(midi);
    JoinEmpty(midi, " ");
    JoinFirst(art, "\n");
  }

  /** A marker first found in the second part is found after the whole first part. */
  lemma {:induction false} PositionAfter(pre: seq<string>, post: seq<string>, marker: string)
    requires forall j :: 0 <= j < |pre| ==> Trim(pre[j]) != marker
    requires |post| > 0 && Trim(post[0]) == marker
    ensures Position(pre + post, marker) == Some(|pre|)
  {
    if |pre| > 0 {
      assert (pre + post)[1..] == pre[1..] + post;
      PositionAfter(pre[1..], post, marker);
    }
  }

  /** Both markers in order with nothing but blank lines between them is an empty MIDI section. */
  lemma BlankMidiSection(lines: seq<string>, m: nat, a: nat)
    requires m < a < |lines|
    requires Position(lines, MidiMarker) == Some(m) && Position(lines, ArtMarker) == Some(a)
    requires forall j :: m < j < a ==> IsBlank(lines[j])
    ensures ParseLines(lines) == Failure(InvalidFormat(EmptyMidi))
  {
    BlankBetween(lines, m, a);
  }

  lemma BlankBetween(lines: seq<string>, m: nat, a: nat)
    requires m < a < |lines|
    requires forall j :: m < j < a ==> IsBlank(lines[j])
    ensures Sections(lines, Some(m), Some(a)) == Failure(InvalidFormat(EmptyMidi))
  {
    var between := lines[m + 1..a];
    forall j | 0 <= j < |between| ensures IsBlank(between[j]) {
      assert between[j] == lines[m + 1 + j];
    }
    MidiWordsBlank(between);
  }

  /** An ART marker before the MIDI marker is refused. */
  lemma ArtBeforeMidi(lines: seq<string>, m: nat, a: nat)
    requires a <= m < |lines|
    requires Position(lines, MidiMarker) == Some(m) && Position(lines, ArtMarker) == Some(a)
    ensures ParseLines(lines) == Failure(InvalidFormat(MidiAfterArt))
  {
  }
}
