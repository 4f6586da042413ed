/**
 * The Kotlin app's note parser (MidiParser.kt): the same note grammar as the
 * terminal player with different edge cases. Octaves have no range check,
 * `.` without a digit keeps the default volume, text after the modifiers
 * is ignored, arpeggio members are separated by whitespace and followed by
 * the shared waveform and volume, and a composition drops the tokens that
 * fail instead of failing. Durations read the parser's mutable tempo.
 */
module KtMidiParser {
  import opened Wrappers
  import opened Text
  import opened MidiEngine

  const IntMax := 0x7fff_ffff

  const EmptyNoteText := "Empty note string"
  const MissingCloseText := "Missing closing parenthesis in arpeggio"
  /** Kotlin's `String.toInt()` failing on a digit run too large for an Int. */
  const NumberTooLarge := "Number too large for Int"
  /** Kotlin's exception for reading a character past the end of a member. */
  const IndexOutOfRange := "String index out of range"

  function MissingDurationIn(input: string): string
  {
    "Missing duration in note: '" + input + "'"
  }

  function MissingLetterIn(input: string): string
  {
    "Missing note letter in: '" + input + "'"
  }

  function InvalidLetterText(c: char): string
  {
    "Invalid note letter: '" + [c] + "'"
  }

  function InvalidArpeggioLetterText(c: char): string
  {
    "Invalid arpeggio note: '" + [c] + "'"
  }

  // ---------------------------------------------------------------------
  // noteToMidiNumber

  /** A Kotlin `Int` result: the value wrapped into [-2^31, 2^31). */
  function Int32(x: int): (r: int)
    ensures -0x8000_0000 <= r <= IntMax
    ensures -0x8000_0000 <= x <= IntMax ==> r == x
  {
    (x + 0x8000_0000) % 0x1_0000_0000 - 0x8000_0000
  }

  /**
   * noteToMidiNumber as written: `12 + octave * 12 + base + sharp` in 32-bit
   * Int arithmetic (each wrapping step composes to one wrap of the exact
   * sum), then clamped to [0, 127].
   */
  function WrappingMidiNumber(note: char, octave: nat, sharp: bool): (r: nat)
    requires octave <= IntMax
    ensures r <= 127
  {
    var midi := Int32(12 + octave * 12 + Semitone(note) + (if sharp then 1 else 0));
    if midi < 0 then 0 else if midi > 127 then 127 else midi
  }

  /** A huge octave wraps around: `c` at octave 357913942 gives 20 instead of the clamped 127. */
  lemma OctaveOverflowWraps()
    ensures WrappingMidiNumber('c', 357913942, false) == 20
    ensures NoteToMidiNumber('c', 357913942, false) == 127
  {
  }

  /** Below the overflow the wrapping formula and the exact clamp agree. */
  lemma WrappingAgreesBelowOverflow(note: char, octave: nat, sharp: bool)
    requires 12 + octave * 12 + 12 <= IntMax
    ensures WrappingMidiNumber(note, octave, sharp) == NoteToMidiNumber(note, octave, sharp)
  {
  }

  /** The exact clamp has no overflow: every octave above 9 gives the top note 127. */
  lemma HighOctavesClamp(note: char, octave: nat, sharp: bool)
    requires octave >= 10
    ensures NoteToMidiNumber(note, octave, sharp) == 127
  {
  }

  // ---------------------------------------------------------------------
  // parseNote

  /**
   * What follows the octave: an optional waveform letter, then `.` with an
   * optional digit giving the volume; anything after that is ignored.
   */
  function Tail(rest: string): (r: (Waveform, real))
    ensures 0.0 <= r.1 <= 1.0
    ensures |rest| == 0 || (!IsWaveformLetter(rest[0]) && rest[0] != '.') ==> r == (Square, 1.0)
  {
    var wave := if |rest| > 0 && IsWaveformLetter(rest[0]) then Some(rest[0]) else None;
    var after := if wave.Some? then rest[1..] else rest;
    var digit := if |after| >= 2 && after[0] == '.' && IsDigit(after[1]) then Some(after[1]) else None;
    (WaveformOf(wave), VolumeOf(digit))
  }

  /** A run of digits read with `toInt()`: its value, or the overflow exception. */
  function IntOf(digits: string): (r: Result<nat, string>)
    requires AllDigits(digits)
    ensures r.Success? <==> DigitsValue(digits) <= IntMax
    ensures r.Success? ==> r.value == DigitsValue(digits)
  {
    if DigitsValue(digits) > IntMax then Failure(NumberTooLarge) else Success(DigitsValue(digits))
  }

  /** The octave digits after a note letter, 4 when there are none. */
  function OctaveDigits(digits: string): (r: Result<nat, string>)
    requires AllDigits(digits)
    ensures |digits| == 0 ==> r == Success(4)
    ensures r.Success? ==> r.value <= IntMax
  {
    if |digits| == 0 then Success(4) else IntOf(digits)
  }

  /**
   * parseNote: trimmed input, duration digits, then an arpeggio, or an
   * optional `#`, a rest `-` or a letter a–g in either case, the octave and
   * the tail. Durations use the tempo `bpm`.
   */
  function NoteOf(input: string, bpm: nat): (r: Result<Note, string>)
    ensures |Trim(input)| == 0 ==> r == Failure(EmptyNoteText)
    ensures |Trim(input)| > 0 && !IsDigit(Trim(input)[0]) ==> r == Failure(MissingDurationIn(input))
    ensures r.Success? ==> r.value.adsr == false && r.value.vibrato == false && 0.0 <= r.value.volume <= 1.0
    ensures r.Success? && r.value.pitch.Some? ==> r.value.pitch.value <= 127 && |r.value.arpeggio| == 0
  {
    var t := Trim(input);
    if |t| == 0 then Failure(EmptyNoteText)
    else
      var d := LeadingDigits(t);
      if d == 0 then Failure(MissingDurationIn(input))
      else DurationThen(input, t[..d], t[d..], bpm)
  }

  /** The note once its duration digits are split off: the duration must fit an Int. */
  function DurationThen(input: string, digits: string, rest: string, bpm: nat): (r: Result<Note, string>)
    requires AllDigits(digits)
    ensures DigitsValue(digits) > IntMax ==> r == Failure(NumberTooLarge)
    ensures DigitsValue(digits) <= IntMax ==> r == NoteAfterDuration(input, DigitsValue(digits), rest, bpm)
  {
    match IntOf(digits)
    case Failure(e) => Failure(e)
    case Success(value) => NoteAfterDuration(input, value, rest, bpm)
  }

  function NoteAfterDuration(input: string, value: nat, rest: string, bpm: nat): (r: Result<Note, string>)
    ensures r.Success? ==> r.value.adsr == false && r.value.vibrato == false && 0.0 <= r.value.volume <= 1.0
    ensures r.Success? && r.value.pitch.Some? ==> r.value.pitch.value <= 127 && |r.value.arpeggio| == 0
    ensures r.Success? ==> r.value.duration == DurationToSeconds(value, bpm)
  {
    if |rest| > 0 && rest[0] == '(' then ArpeggioOf(value, rest, bpm)
    else LetterNote(input, value, rest, bpm)
  }

  /** A note that is not an arpeggio: an optional `#`, then `-` for a rest or a letter, octave digits and the tail. */
  function LetterNote(input: string, value: nat, rest: string, bpm: nat): (r: Result<Note, string>)
    ensures r.Success? ==> r.value.adsr == false && r.value.vibrato == false && 0.0 <= r.value.volume <= 1.0
    ensures r.Success? && r.value.pitch.Some? ==> r.value.pitch.value <= 127 && |r.value.arpeggio| == 0
    ensures r.Success? ==> r.value.duration == DurationToSeconds(value, bpm)
  {
    var sharp := |rest| > 0 && rest[0] == '#';
    var r2 := if sharp then rest[1..] else rest;
    if |r2| == 0 then Failure(MissingLetterIn(input))
    else if r2[0] == '-' then Success(RestNote(DurationToSeconds(value, bpm)))
    else if !IsNoteLetter(ToLower(r2[0])) then Failure(InvalidLetterText(r2[0]))
    else PitchedNote(value, ToLower(r2[0]), sharp, r2[1..], bpm)
  }

  /** A note letter read: the octave digits after it (4 when absent), then the tail. */
  function PitchedNote(value: nat, letter: char, sharp: bool, after: string, bpm: nat): (r: Result<Note, string>)
    ensures r.Success? ==> r.value.adsr == false && r.value.vibrato == false && 0.0 <= r.value.volume <= 1.0
    ensures r.Success? ==> r.value.pitch.Some? && r.value.pitch.value <= 127 && |r.value.arpeggio| == 0
    ensures r.Success? ==> r.value.duration == DurationToSeconds(value, bpm)
  {
    var od := LeadingDigits(after);
    match OctaveDigits(after[..od])
    case Failure(e) => Failure(e)
    case Success(octave) =>
      var (wave, volume) := Tail(after[od..]);
      Success(Note(Some(WrappingMidiNumber(letter, octave, sharp)), DurationToSeconds(value, bpm), wave, volume, [], false, false))
  }

  // ---------------------------------------------------------------------
  // parseArpeggio

  /** One arpeggio member: an optional `#`, a letter a–g in either case and optional octave digits (default 4). */
  function MemberPitch(m: string): (r: Result<nat, string>)
    ensures r.Success? ==> r.value <= 127
    ensures |m| == 0 ==> r == Failure(IndexOutOfRange)
  {
    var sharp := |m| > 0 && m[0] == '#';
    var idx := if sharp then 1 else 0;
    if idx >= |m| then Failure(IndexOutOfRange)
    else if !IsNoteLetter(ToLower(m[idx])) then Failure(InvalidArpeggioLetterText(m[idx]))
    else
      var after := m[idx + 1..];
      var od := LeadingDigits(after);
      match OctaveDigits(after[..od])
      case Failure(e) => Failure(e)
      case Success(octave) => Success(WrappingMidiNumber(ToLower(m[idx]), octave, sharp))
  }

  /** The pitches of the members from `k` on, appended to `acc`; the first bad member fails the arpeggio. */
  function MemberRun(members: seq<string>, k: nat, acc: seq<nat>): (r: Result<seq<nat>, string>)
    requires k <= |members|
    ensures r.Success? ==> |r.value| == |acc| + |members| - k && r.value[..|acc|] == acc
    decreases |members| - k
  {
    if k == |members| then Success(acc)
    else
      match MemberPitch(members[k])
      case Failure(e) => Failure(e)
      case Success(p) =>
        var acc' := acc + [p];
        var r := MemberRun(members, k + 1, acc');
        assert r.Success? ==> r.value[..|acc|] == r.value[..|acc'|][..|acc|];
        r
  }

  /** Each member that the run reads contributes its own pitch, in member order. */
  lemma {:induction false} MemberRunPitches(members: seq<string>, k: nat, acc: seq<nat>, j: nat)
    requires k <= j < |members| && MemberRun(members, k, acc).Success?
    ensures MemberPitch(members[j]) == Success(MemberRun(members, k, acc).value[|acc| + j - k])
    decreases |members| - k
  {
    var p := MemberPitch(members[k]).value;
    var acc' := acc + [p];
    var r := MemberRun(members, k + 1, acc');
    if j == k {
      assert r.value[|acc|] == r.value[..|acc'|][|acc|] == p;
    } else {
      MemberRunPitches(members, k + 1, acc', j);
    }
  }

  /**
   * parseArpeggio: `rest` starts with `(`; the members are the whitespace
   * pieces up to the first `)`, and the tail after it sets the waveform and
   * volume of the whole arpeggio. The result has no pitch and one entry per
   * member.
   */
  function ArpeggioOf(value: nat, rest: string, bpm: nat): (r: Result<Note, string>)
    requires |rest| > 0 && rest[0] == '('
    ensures ')' !in rest[1..] ==> r == Failure(MissingCloseText)
    ensures r.Success? ==> r.value.pitch.None? && r.value.duration == DurationToSeconds(value, bpm)
    ensures r.Success? ==> |r.value.arpeggio| == |SplitTrimmed(rest[1..][..IndexOf(rest[1..], ')')])|
    ensures r.Success? ==> r.value.adsr == false && r.value.vibrato == false && 0.0 <= r.value.volume <= 1.0
  {
    var body := rest[1..];
    if ')' !in body then Failure(MissingCloseText)
    else
      var close := IndexOf(body, ')');
      var members := SplitTrimmed(body[..close]);
      match MemberRun(members, 0, [])
      case Failure(e) => Failure(e)
      case Success(pitches) =>
        var (wave, volume) := Tail(body[close + 1..]);
        Success(Note(None, DurationToSeconds(value, bpm), wave, volume, pitches, false, false))
  }

  /** A blank arpeggio fails on reading its missing first member, not with an "empty" error. */
  lemma BlankArpeggioFails(value: nat, bpm: nat)
    ensures ArpeggioOf(value, "()", bpm) == Failure(IndexOutOfRange)
  {
    assert "()"[1..] == ")";
    assert IndexOf(")", ')') == 0;
    assert SplitTrimmed("") == [""];
  }

  /** A token that is duration digits and a non-digit rest is the rest read after that duration. */
  lemma NoteOfDigitsThen(digits: string, rest: string, bpm: nat)
    requires |digits| > 0 && AllDigits(digits)
    requires |rest| > 0 && !IsDigit(rest[0]) && !IsSpace(rest[|rest| - 1])
    ensures NoteOf(digits + rest, bpm) == DurationThen(digits + rest, digits, rest, bpm)
  {
    DigitsThen(digits, rest);
  }

  /** A duration that does not fit an Int fails the note, whatever follows it. */
  lemma DurationTooLarge(digits: string, rest: string, bpm: nat)
    requires |digits| > 0 && AllDigits(digits) && DigitsValue(digits) > IntMax
    requires |rest| > 0 && !IsDigit(rest[0]) && !IsSpace(rest[|rest| - 1])
    ensures NoteOf(digits + rest, bpm) == Failure(NumberTooLarge)
  {
    NoteOfDigitsThen(digits, rest, bpm);
  }

  /** A rest whose duration is beyond Int is rejected too. */
  lemma RestTooLarge(digits: string, bpm: nat)
    requires |digits| > 0 && AllDigits(digits) && DigitsValue(digits) > IntMax
    ensures NoteOf(digits + "-", bpm) == Failure(NumberTooLarge)
  {
    DurationTooLarge(digits, "-", bpm);
  }

  /** A `-` right after the duration is a rest of that duration. */
  lemma RestAfterDuration(input: string, value: nat, bpm: nat)
    ensures NoteAfterDuration(input, value, "-", bpm) == Success(RestNote(DurationToSeconds(value, bpm)))
  {
    assert "-"[0] == '-';
  }

  /** A rest: duration digits and `-` give no pitch, the square wave and full volume. */
  lemma RestToken(digits: string, bpm: nat)
    requires |digits| > 0 && AllDigits(digits) && DigitsValue(digits) <= IntMax
    ensures NoteOf(digits + "-", bpm) == Success(RestNote(DurationToSeconds(DigitsValue(digits), bpm)))
  {
    NoteOfDigitsThen(digits, "-", bpm);
    RestAfterDuration(digits + "-", DigitsValue(digits), bpm);
  }

  /**
   * Octave digits are not range-checked: any octave that fits an Int is
   * accepted and goes through the wrapping Int formula and the clamp (so a
   * huge octave can wrap round to a low pitch, by OctaveOverflowWraps).
   */
  lemma OctaveUnchecked(input: string, value: nat, rest: string, bpm: nat)
    requires |rest| > 1 && IsNoteLetter(rest[0]) && AllDigits(rest[1..]) && DigitsValue(rest[1..]) <= IntMax
    ensures LetterNote(input, value, rest, bpm)
      == Success(Note(Some(WrappingMidiNumber(rest[0], DigitsValue(rest[1..]), false)), DurationToSeconds(value, bpm), Square, 1.0, [], false, false))
  {
    OctaveOnly(value, rest[0], rest[1..], bpm);
  }

  /** Octave digits with nothing after them: that octave, the square wave and full volume. */
  lemma OctaveOnly(value: nat, letter: char, octave: string, bpm: nat)
    requires |octave| > 0 && AllDigits(octave) && DigitsValue(octave) <= IntMax
    ensures PitchedNote(value, letter, false, octave, bpm)
      == Success(Note(Some(WrappingMidiNumber(letter, DigitsValue(octave), false)), DurationToSeconds(value, bpm), Square, 1.0, [], false, false))
  {
    LeadingDigitsExact(octave, |octave|);
    assert octave[..|octave|] == octave && octave[|octave|..] == "";
  }

  /** As written the parser plays `c` at octave 357913942 at pitch 20, where the exact clamp gives 127. */
  lemma ParsedOctaveWraps(value: nat, bpm: nat)
    ensures PitchedNote(value, 'c', false, "357913942", bpm).Success?
    ensures PitchedNote(value, 'c', false, "357913942", bpm).value.pitch == Some(20)
  {
    var t: string := [];
    var v := 0;
    t, v := AppendDigit(t, v, '3');
    t, v := AppendDigit(t, v, '5');
    t, v := AppendDigit(t, v, '7');
    t, v := AppendDigit(t, v, '9');
    t, v := AppendDigit(t, v, '1');
    t, v := AppendDigit(t, v, '3');
    t, v := AppendDigit(t, v, '9');
    t, v := AppendDigit(t, v, '4');
    t, v := AppendDigit(t, v, '2');
    assert t == "357913942";
    OctaveOnly(value, 'c', "357913942", bpm);
    OctaveOverflowWraps();
  }

  // ---------------------------------------------------------------------
  // parseComposition

  /** The notes among the parse results, in order; failures are dropped. */
  function Successes(results: seq<Result<Note, string>>): (r: seq<Note>)
    ensures |r| <= |results|
  {
    if |results| == 0 then []
    else
      var last := results[|results| - 1];
      Successes(results[..|results| - 1]) + if last.Success? then [last.value] else []
  }

  /** One more result adds its note when it is a success. */
  lemma SuccessesStep(results: seq<Result<Note, string>>, k: nat)
    requires k < |results|
    ensures Successes(results[..k + 1]) == Successes(results[..k]) + if results[k].Success? then [results[k].value] else []
  {
    assert results[..k + 1][..k] == results[..k];
  }

  /** The parse of each token. */
  function ParseAll(tokens: seq<string>, bpm: nat): (r: seq<Result<Note, string>>)
    ensures |r| == |tokens|
  {
    if |tokens| == 0 then [] else ParseAll(tokens[..|tokens| - 1], bpm) + [NoteOf(tokens[|tokens| - 1], bpm)]
  }

  /** Result `k` is the parse of token `k`. */
  lemma {:induction false} ParseAllAt(tokens: seq<string>, bpm: nat, k: nat)
    requires k < |tokens|
    ensures ParseAll(tokens, bpm)[k] == NoteOf(tokens[k], bpm)
  {
    if k < |tokens| - 1 {
      ParseAllAt(tokens[..|tokens| - 1], bpm, k);
    }
  }

  /** parseComposition never fails: the notes of the whitespace tokens that parse, in order. */
  function CompositionOf(composition: string, bpm: nat): seq<Note>
  {
    Successes(ParseAll(SplitTrimmed(composition), bpm))
  }

  /** When every result is a note, there is one note per result, in order. */
  lemma {:induction false} AllSucceed(results: seq<Result<Note, string>>)
    requires forall j :: 0 <= j < |results| ==> results[j].Success?
    ensures |Successes(results)| == |results|
    ensures forall j :: 0 <= j < |results| ==> Successes(results)[j] == results[j].value
  {
    if |results| > 0 {
      var init := results[..|results| - 1];
      AllSucceed(init);
    }
  }

  /** When every result is an error, there are no notes. */
  lemma {:induction false} AllFail(results: seq<Result<Note, string>>)
    requires forall j :: 0 <= j < |results| ==> results[j].Failure?
    ensures Successes(results) == []
  {
    if |results| > 0 {
      AllFail(results[..|results| - 1]);
    }
  }

  /** The parser object: its tempo is a mutable field that the synthesizer sets from `--bpm`. */
  class Parser {
    var bpm: nat

    constructor()
      ensures bpm == 120
    {
      bpm := 120;
    }

    method ParseNote(input: string) returns (r: Result<Note, string>)
      ensures r == NoteOf(input, bpm)
    {
      var trimmed := Trim(input);
      if |trimmed| == 0 {
        return Failure(EmptyNoteText);
      }
      var i := CountLeadingDigits(trimmed);
      if i == 0 {
        return Failure(MissingDurationIn(input));
      }
      var value := IntOf(trimmed[..i]);
      if value.Failure? {
        return Failure(value.error);
      }
      r := ParseAfterDuration(input, value.value, trimmed[i..]);
    }

    /** The rest of parseNote once the duration is read. */
    method ParseAfterDuration(input: string, value: nat, rest: string) returns (r: Result<Note, string>)
      ensures r == NoteAfterDuration(input, value, rest, bpm)
    {
      if |rest| > 0 && rest[0] == '(' {
        r := ParseArpeggio(value, rest);
        return;
      }
      var j := 0;
      var sharp := false;
      if j < |rest| && rest[j] == '#' {
        sharp := true;
        j := j + 1;
      }
      if j >= |rest| {
        return Failure(MissingLetterIn(input));
      }
      var noteChar := rest[j];
      if noteChar == '-' {
        return Success(RestNote(DurationToSeconds(value, bpm)));
      }
      var lower := ToLower(noteChar);
      if !IsNoteLetter(lower) {
        return Failure(InvalidLetterText(noteChar));
      }
      j := j + 1;
      var after := rest[j..];
      var od := CountLeadingDigits(after);
      var octave := OctaveDigits(after[..od]);
      if octave.Failure? {
        return Failure(octave.error);
      }
      var (wave, volume) := Tail(after[od..]);
      r := Success(Note(Some(WrappingMidiNumber(lower, octave.value, sharp)), DurationToSeconds(value, bpm), wave, volume, [], false, false));
    }

    method ParseArpeggio(value: nat, input: string) returns (r: Result<Note, string>)
      requires |input| > 0 && input[0] == '('
      ensures r == ArpeggioOf(value, input, bpm)
    {
      var i := 1;
      var content := "";
      var foundClose := false;
      while i < |input|
        invariant 1 <= i <= |input|
        invariant content == input[1..i] && ')' !in content
        invariant !foundClose
      {
        if input[i] == ')' {
          foundClose := true;
          break;
        }
        content := content + [input[i]];
        i := i + 1;
      }
      if !foundClose {
        assert input[1..] == content;
        return Failure(MissingCloseText);
      }
      assert input[1..][..i - 1] == content && input[1..][i - 1] == ')';
      IndexOfUnique(input[1..], ')', i - 1);
      i := i + 1;
      var members := SplitTrimmed(content);
      var pitches: seq<nat> := [];
      var k := 0;
      while k < |members|
        invariant k <= |members|
        invariant MemberRun(members, k, pitches) == MemberRun(members, 0, [])
      {
        var p := MemberPitch(members[k]);
        if p.Failure? {
          return Failure(p.error);
        }
        pitches := pitches + [p.value];
        k := k + 1;
      }
      assert input[1..][i - 1..] == input[i..];
      var (wave, volume) := Tail(input[i..]);
      r := Success(Note(None, DurationToSeconds(value, bpm), wave, volume, pitches, false, false));
    }

    method ParseComposition(composition: string) returns (notes: seq<Note>)
      ensures notes == CompositionOf(composition, bpm)
    {
      var tokens := SplitTrimmed(composition);
      ghost var results := ParseAll(tokens, bpm);
      notes := [];
      var k := 0;
      while k < |tokens|
        invariant k <= |tokens|
        invariant notes == Successes(results[..k])
      {
        assert results[..k + 1][..k] == results[..k];
        var n := ParseNote(tokens[k]);
        ParseAllAt(tokens, bpm, k);
        if n.Success? {
          notes := notes + [n.value];
        }
        k := k + 1;
      }
      assert results[..k] == results;
    }
  }
}
