/**
 * The web page's synthesizer and player (static/midi.js): the note grammar
 * once more, this time with JavaScript numbers (no Int overflow), error
 * messages quoting the trimmed note, a composition that skips `--` tokens
 * (but not their arguments) and drops notes that fail, buffer lengths, and
 * the player's volume and mute state.
 */
module JsMidi {
  import opened Wrappers
  import opened Text
  import opened MidiEngine
  import KtMidiParser

  /** The TypeError of calling `toLowerCase` on the missing letter of a member such as `#` or the empty one. */
  const MemberTypeError := "Cannot read properties of undefined (reading 'toLowerCase')"
  /** The RangeError of `new Array(Infinity)`. */
  const InvalidArrayLength := "Invalid array length"
  /** What a skipped `--` token contributes: nothing, like a failing note. */
  const SkippedFlag := "skipped flag token"

  // ---------------------------------------------------------------------
  // parseNote and parseArpeggio

  /**
   * parseNote on the trimmed note `t`: duration digits, then an arpeggio,
   * or an optional `#`, a rest `-` or a letter a–g in either case, any
   * number of octave digits (default 4) and the tail.
   */
  function NoteOf(input: string, bpm: nat): (r: Result<Note, string>)
    ensures |Trim(input)| == 0 ==> r == Failure(KtMidiParser.EmptyNoteText)
    ensures r.Success? ==> r.value.adsr == false && r.value.vibrato == false && 0.0 <= r.value.volume <= 1.0
    ensures r.Success? && r.value.pitch.Some? ==> r.value.pitch.value <= 127 && |r.value.arpeggio| == 0
  {
    var t := Trim(input);
    if |t| == 0 then Failure(KtMidiParser.EmptyNoteText)
    else
      var d := LeadingDigits(t);
      if d == 0 then Failure(KtMidiParser.MissingDurationIn(t))
      else NoteAfterDuration(t, DigitsValue(t[..d]), t[d..], bpm)
  }

  function NoteAfterDuration(t: string, value: nat, rest: string, bpm: nat): (r: Result<Note, string>)
    ensures r.Success? ==> r.value.adsr == false && r.value.vibrato == false && 0.0 <= r.value.volume <= 1.0
    ensures r.Success? && r.value.pitch.Some? ==> r.value.pitch.value <= 127 && |r.value.arpeggio| == 0
    ensures r.Success? ==> r.value.duration == DurationToSeconds(value, bpm)
  {
    if |rest| > 0 && rest[0] == '(' then ArpeggioOf(value, rest, bpm)
    else LetterNote(t, value, rest, bpm)
  }

  /** A note that is not an arpeggio: an optional `#`, then `-` for a rest or a letter, octave digits and the tail. */
  function LetterNote(t: string, value: nat, rest: string, bpm: nat): (r: Result<Note, string>)
    ensures r.Success? ==> r.value.adsr == false && r.value.vibrato == false && 0.0 <= r.value.volume <= 1.0
    ensures r.Success? && r.value.pitch.Some? ==> r.value.pitch.value <= 127 && |r.value.arpeggio| == 0
    ensures r.Success? ==> r.value.duration == DurationToSeconds(value, bpm)
  {
    var sharp := |rest| > 0 && rest[0] == '#';
    var r2 := if sharp then rest[1..] else rest;
    if |r2| == 0 then Failure(KtMidiParser.MissingLetterIn(t))
    else if r2[0] == '-' then Success(RestNote(DurationToSeconds(value, bpm)))
    else if !IsNoteLetter(ToLower(r2[0])) then Failure(KtMidiParser.InvalidLetterText(r2[0]))
    else
      var after := r2[1..];
      var od := LeadingDigits(after);
      var octave := if od == 0 then 4 else DigitsValue(after[..od]);
      var (wave, volume) := KtMidiParser.Tail(after[od..]);
      Success(Note(Some(NoteToMidiNumber(ToLower(r2[0]), octave, sharp)), DurationToSeconds(value, bpm), wave, volume, [], false, false))
  }

  /** One arpeggio member: an optional `#`, a letter a–g in either case and octave digits (default 4). */
  function MemberPitch(m: string): (r: Result<nat, string>)
    ensures r.Success? ==> r.value <= 127
    ensures |m| == 0 || m == "#" ==> r == Failure(MemberTypeError)
  {
    var sharp := |m| > 0 && m[0] == '#';
    var idx := if sharp then 1 else 0;
    if idx >= |m| then Failure(MemberTypeError)
    else if !IsNoteLetter(ToLower(m[idx])) then Failure(KtMidiParser.InvalidArpeggioLetterText(m[idx]))
    else
      var after := m[idx + 1..];
      var od := LeadingDigits(after);
      var octave := if od == 0 then 4 else DigitsValue(after[..od]);
      Success(NoteToMidiNumber(ToLower(m[idx]), octave, sharp))
  }

  /** The pitches of the members from `k` on, appended to `acc`; the first bad member fails the arpeggio. */
  function MemberRun(members: seq<string>, k: nat, acc: seq<nat>): (r: Result<seq<nat>, string>)
    requires k <= |members|
    ensures r.Success? ==> |r.value| == |acc| + |members| - k && r.value[..|acc|] == acc
    decreases |members| - k
  {
    if k == |members| then Success(acc)
    else
      match MemberPitch(members[k])
      case Failure(e) => Failure(e)
      case Success(p) =>
        var acc' := acc + [p];
        var r := MemberRun(members, k + 1, acc');
        assert r.Success? ==> r.value[..|acc|] == r.value[..|acc'|][..|acc|];
        r
  }

  /** Each member that the run reads contributes its own pitch, in member order. */
  lemma {:induction false} MemberRunPitches(members: seq<string>, k: nat, acc: seq<nat>, j: nat)
    requires k <= j < |members| && MemberRun(members, k, acc).Success?
    ensures MemberPitch(members[j]) == Success(MemberRun(members, k, acc).value[|acc| + j - k])
    decreases |members| - k
  {
    var p := MemberPitch(members[k]).value;
    var acc' := acc + [p];
    var r := MemberRun(members, k + 1, acc');
    if j == k {
      assert r.value[|acc|] == r.value[..|acc'|][|acc|] == p;
    } else {
      MemberRunPitches(members, k + 1, acc', j);
    }
  }

  /**
   * parseArpeggio: `rest` starts with `(`; the members are the whitespace
   * pieces up to the first `)`, each giving one pitch, and the tail after
   * it sets the waveform and volume of the whole arpeggio.
   */
  function ArpeggioOf(value: nat, rest: string, bpm: nat): (r: Result<Note, string>)
    requires |rest| > 0 && rest[0] == '('
    ensures ')' !in rest[1..] ==> r == Failure(KtMidiParser.MissingCloseText)
    ensures r.Success? ==> r.value.pitch.None? && r.value.duration == DurationToSeconds(value, bpm)
    ensures r.Success? ==> |r.value.arpeggio| == |SplitTrimmed(rest[1..][..IndexOf(rest[1..], ')')])|
    ensures r.Success? ==> r.value.adsr == false && r.value.vibrato == false && 0.0 <= r.value.volume <= 1.0
  {
    var body := rest[1..];
    if ')' !in body then Failure(KtMidiParser.MissingCloseText)
    else
      var close := IndexOf(body, ')');
      var members := SplitTrimmed(body[..close]);
      match MemberRun(members, 0, [])
      case Failure(e) => Failure(e)
      case Success(pitches) =>
        var (wave, volume) := KtMidiParser.Tail(body[close + 1..]);
        Success(Note(None, DurationToSeconds(value, bpm), wave, volume, pitches, false, false))
  }

  /** An empty arpeggio fails reading its missing first letter; the "Empty arpeggio" check can never fire. */
  lemma BlankArpeggioFails(value: nat, bpm: nat)
    ensures ArpeggioOf(value, "()", bpm) == Failure(MemberTypeError)
  {
    assert "()"[1..] == ")";
    assert IndexOf(")", ')') == 0;
    assert SplitTrimmed("") == [""];
  }

  /** A note that is duration digits and a non-digit rest is that rest read after that duration. */
  lemma NoteOfDigitsThen(digits: string, rest: string, bpm: nat)
    requires |digits| > 0 && AllDigits(digits)
    requires |rest| > 0 && !IsDigit(rest[0]) && !IsSpace(rest[|rest| - 1])
    ensures NoteOf(digits + rest, bpm) == NoteAfterDuration(digits + rest, DigitsValue(digits), rest, bpm)
  {
    DigitsThen(digits, rest);
  }

  /** A `-` right after the duration is a rest of that duration. */
  lemma RestAfterDuration(t: string, value: nat, bpm: nat)
    ensures NoteAfterDuration(t, value, "-", bpm) == Success(RestNote(DurationToSeconds(value, bpm)))
  {
    assert "-"[0] == '-';
  }

  /**
   * Durations have no Int limit: where the Kotlin parser overflows, this
   * one reads the whole number; a duration `-` is a rest at any length.
   */
  lemma LongDurationRest(digits: string, bpm: nat)
    requires |digits| > 0 && AllDigits(digits) && DigitsValue(digits) > KtMidiParser.IntMax
    ensures NoteOf(digits + "-", bpm) == Success(RestNote(DurationToSeconds(DigitsValue(digits), bpm)))
    ensures KtMidiParser.NoteOf(digits + "-", bpm) == Failure(KtMidiParser.NumberTooLarge)
  {
    RestToken(digits, bpm);
    KtMidiParser.RestTooLarge(digits, bpm);
  }

  /** Duration digits and `-` are a rest of that duration, however long the digit run. */
  lemma RestToken(digits: string, bpm: nat)
    requires |digits| > 0 && AllDigits(digits)
    ensures NoteOf(digits + "-", bpm) == Success(RestNote(DurationToSeconds(DigitsValue(digits), bpm)))
  {
    NoteOfDigitsThen(digits, "-", bpm);
    RestAfterDuration(digits + "-", DigitsValue(digits), bpm);
  }

  /**
   * Without overflow the two parsers agree on a plain note: letter, octave
   * digits and tail give the same note.
   */
  lemma AgreesWithKotlin(input: string, value: nat, letter: char, octave: string, tail: string, bpm: nat)
    requires IsNoteLetter(letter) && AllDigits(octave) && 12 + DigitsValue(octave) * 12 + 12 <= KtMidiParser.IntMax
    requires |tail| == 0 || !IsDigit(tail[0])
    ensures NoteAfterDuration(input, value, [letter] + octave + tail, bpm)
      == KtMidiParser.NoteAfterDuration(input, value, [letter] + octave + tail, bpm)
  {
    var rest := [letter] + octave + tail;
    var after := octave + tail;
    assert rest[0] == letter && rest[1..] == after;
    assert ToLower(letter) == letter && letter != '(' && letter != '#' && letter != '-';
    LeadingDigitsConcat(octave, tail);
    assert after[..|octave|] == octave && after[|octave|..] == tail;
    var o := if |octave| == 0 then 4 else DigitsValue(octave);
    if |octave| > 0 {
      KtMidiParser.WrappingAgreesBelowOverflow(letter, o, false);
    }
    assert KtMidiParser.OctaveDigits(octave) == Success(o);
    var (wave, volume) := KtMidiParser.Tail(tail);
    var note := Note(Some(NoteToMidiNumber(letter, o, false)), DurationToSeconds(value, bpm), wave, volume, [], false, false);
    assert KtMidiParser.PitchedNote(value, letter, false, after, bpm) == Success(note);
    assert LetterNote(input, value, rest, bpm) == Success(note);
  }

  // ---------------------------------------------------------------------
  // parseComposition

  /** What one token contributes: nothing when it starts with `--`, otherwise its parse. */
  function TokenResult(token: string, bpm: nat): Result<Note, string>
  {
    if StartsWith(token, "--") then Failure(SkippedFlag) else NoteOf(token, bpm)
  }

  /** The contribution of each token, in order. */
  function ParseAll(tokens: seq<string>, bpm: nat): (r: seq<Result<Note, string>>)
    ensures |r| == |tokens|
  {
    if |tokens| == 0 then [] else ParseAll(tokens[..|tokens| - 1], bpm) + [TokenResult(tokens[|tokens| - 1], bpm)]
  }

  /** Result `k` is what token `k` contributes. */
  lemma {:induction false} ParseAllAt(tokens: seq<string>, bpm: nat, k: nat)
    requires k < |tokens|
    ensures ParseAll(tokens, bpm)[k] == TokenResult(tokens[k], bpm)
  {
    if k < |tokens| - 1 {
      ParseAllAt(tokens[..|tokens| - 1], bpm, k);
    }
  }

  /** parseComposition never throws: the notes of the tokens that are not flags and parse, in order. */
  function CompositionOf(composition: string, bpm: nat): seq<Note>
  {
    KtMidiParser.Successes(ParseAll(SplitTrimmed(composition), bpm))
  }

  /** A flag token adds no note, and the token after it is read as a note like any other. */
  lemma FlagArgumentIsANote(tokens: seq<string>, k: nat, bpm: nat)
    requires k + 1 < |tokens| && StartsWith(tokens[k], "--")
    ensures ParseAll(tokens, bpm)[k].Failure?
    ensures !StartsWith(tokens[k + 1], "--") ==> ParseAll(tokens, bpm)[k + 1] == NoteOf(tokens[k + 1], bpm)
  {
    ParseAllAt(tokens, bpm, k);
    ParseAllAt(tokens, bpm, k + 1);
  }

  // ---------------------------------------------------------------------
  // buffer lengths

  /** `Math.floor(48000 * duration)`; an infinite duration has no finite length. */
  function JsSampleCount(d: Seconds): (n: Option<nat>)
    ensures n.None? <==> d.Infinite?
  {
    match d
    case Infinite => None
    case Finite(s) => if s <= 0.0 then Some(0) else Some((SampleRate as real * s).Floor)
  }

  /** The waveform generator, given a pitch, a finite duration and the note whose volume and waveform it uses. */
  type Tone = (nat, Seconds, Note) -> seq<real>

  /** The generator returns `Math.floor(48000 * duration)` samples, whatever their values. */
  ghost predicate ToneLength(tone: Tone)
  {
    forall p: nat, d: Seconds, n: Note :: d.Finite? ==> |tone(p, d, n)| == JsSampleCount(d).value
  }

  /** The samples of the arpeggio members in order, each played for `d`. */
  function MemberSamples(pitches: seq<nat>, d: Seconds, note: Note, tone: Tone): seq<real>
  {
    if |pitches| == 0 then []
    else MemberSamples(pitches[..|pitches| - 1], d, note, tone) + tone(pitches[|pitches| - 1], d, note)
  }

  /**
   * What generateNoteSamples or generateAudioBuffer does: return its
   * samples, throw, or never return.
   */
  datatype Rendered = Samples(samples: seq<real>) | Thrown(error: string) | Diverges

  /**
   * generateNoteSamples: each arpeggio member plays for an equal share, a
   * pitched note plays its pitch, a rest is zeros. An infinite duration (a
   * duration digit 0) has no buffer: the rest's `new Array(Infinity)`
   * throws, while the tone loop of a pitch or of the first arpeggio member
   * counts towards `Infinity` and never returns.
   */
  function NoteSamples(note: Note, tone: Tone): Rendered
  {
    if note.duration.Infinite? then
      if |note.arpeggio| > 0 || note.pitch.Some? then Diverges else Thrown(InvalidArrayLength)
    else if |note.arpeggio| > 0 then Samples(MemberSamples(note.arpeggio, Share(note.duration, |note.arpeggio|), note, tone))
    else if note.pitch.Some? then Samples(tone(note.pitch.value, note.duration, note))
    else Samples(seq(JsSampleCount(note.duration).value, _ => 0.0))
  }

  /** The samples of the notes one after the other, or the outcome of the first note that has none. */
  function NotesSamples(notes: seq<Note>, tone: Tone): Rendered
  {
    if |notes| == 0 then Samples([])
    else
      var init := NotesSamples(notes[..|notes| - 1], tone);
      if !init.Samples? then init
      else
        var last := NoteSamples(notes[|notes| - 1], tone);
        if !last.Samples? then last else Samples(init.samples + last.samples)
  }

  /** How many samples a note lasts. */
  function JsNoteSampleCount(note: Note): Option<nat>
  {
    if note.duration.Infinite? then None
    else if |note.arpeggio| > 0 then Some(|note.arpeggio| * JsSampleCount(Share(note.duration, |note.arpeggio|)).value)
    else JsSampleCount(note.duration)
  }

  function JsNotesSampleCount(notes: seq<Note>): Option<nat>
  {
    if |notes| == 0 then Some(0)
    else
      match (JsNotesSampleCount(notes[..|notes| - 1]), JsNoteSampleCount(notes[|notes| - 1]))
      case (Some(a), Some(b)) => Some(a + b)
      case _ => None
  }

  lemma {:induction false} MemberSamplesLength(pitches: seq<nat>, d: Seconds, note: Note, tone: Tone)
    requires ToneLength(tone) && d.Finite?
    ensures |MemberSamples(pitches, d, note, tone)| == |pitches| * JsSampleCount(d).value
  {
    if |pitches| > 0 {
      MemberSamplesLength(pitches[..|pitches| - 1], d, note, tone);
    }
  }

  /**
   * A note's buffer exists exactly when its duration is finite, and has the
   * note's sample count; an infinite rest throws the RangeError, an infinite
   * pitch or arpeggio never returns.
   */
  lemma NoteSamplesLength(note: Note, tone: Tone)
    requires ToneLength(tone)
    ensures NoteSamples(note, tone).Samples? <==> JsNoteSampleCount(note).Some?
    ensures NoteSamples(note, tone).Samples? ==> |NoteSamples(note, tone).samples| == JsNoteSampleCount(note).value
    ensures NoteSamples(note, tone) == Thrown(InvalidArrayLength) <==>
      note.duration.Infinite? && |note.arpeggio| == 0 && note.pitch.None?
    ensures NoteSamples(note, tone) == Diverges <==>
      note.duration.Infinite? && (|note.arpeggio| > 0 || note.pitch.Some?)
  {
    if note.duration.Finite? && |note.arpeggio| > 0 {
      MemberSamplesLength(note.arpeggio, Share(note.duration, |note.arpeggio|), note, tone);
    }
  }

  /** generateAudioBuffer's length is the sum of the notes' sample counts. */
  lemma {:induction false} NotesSamplesLength(notes: seq<Note>, tone: Tone)
    requires ToneLength(tone)
    ensures NotesSamples(notes, tone).Samples? <==> JsNotesSampleCount(notes).Some?
    ensures NotesSamples(notes, tone).Samples? ==> |NotesSamples(notes, tone).samples| == JsNotesSampleCount(notes).value
  {
    if |notes| > 0 {
      NotesSamplesLength(notes[..|notes| - 1], tone);
      NoteSamplesLength(notes[|notes| - 1], tone);
    }
  }

  /** The notes have samples exactly when every duration is finite, whatever the generator. */
  lemma {:induction false} SamplesIffFinite(notes: seq<Note>, tone: Tone)
    ensures NotesSamples(notes, tone).Samples? <==> AllFinite(notes)
  {
    if |notes| > 0 {
      SamplesIffFinite(notes[..|notes| - 1], tone);
      AllFiniteSnoc(notes);
    }
  }

  /**
   * The first note of infinite duration decides the outcome: the buffer
   * throws if it is a rest and never returns if it has a pitch or an
   * arpeggio, whatever follows it.
   */
  lemma FirstInfiniteDecides(notes: seq<Note>, k: nat, tone: Tone)
    requires k < |notes| && AllFinite(notes[..k]) && notes[k].duration.Infinite?
    ensures NotesSamples(notes, tone) == NoteSamples(notes[k], tone)
    ensures NotesSamples(notes, tone) == Thrown(InvalidArrayLength) <==> |notes[k].arpeggio| == 0 && notes[k].pitch.None?
    ensures NotesSamples(notes, tone) == Diverges <==> |notes[k].arpeggio| > 0 || notes[k].pitch.Some?
  {
    SamplesIffFinite(notes[..k], tone);
    assert notes[..k + 1][..k] == notes[..k];
    assert NotesSamples(notes[..k + 1], tone) == NoteSamples(notes[k], tone);
    FailurePersists(notes, k + 1, tone);
  }

  /** A quarter rest at 120 bpm is 24000 zeros. */
  lemma QuarterRest(tone: Tone)
    ensures NoteSamples(RestNote(DurationToSeconds(4, 120)), tone) == Samples(seq(24000, _ => 0.0))
  {
    DurationExamples();
    assert (24000.0).Floor == 24000;
  }

  /** generateAudioBuffer: the samples of the composition's notes. */
  function AudioBufferOf(composition: string, bpm: nat, tone: Tone): Rendered
  {
    NotesSamples(CompositionOf(composition, bpm), tone)
  }

  /** A `c` right after the duration 0 is a middle C that lasts forever. */
  lemma MiddleCAfterZero(t: string, bpm: nat)
    ensures NoteAfterDuration(t, 0, "c", bpm) == Success(Note(Some(NoteToMidiNumber('c', 4, false)), Infinite, Square, 1.0, [], false, false))
  {
    assert "c"[0] == 'c' && "c"[1..] == "" && LeadingDigits("") == 0;
    assert KtMidiParser.Tail("") == (Square, 1.0);
  }

  /** The token `0c` is a middle C of infinite duration. */
  lemma ZeroNoteToken(bpm: nat)
    ensures NoteOf("0c", bpm) == Success(Note(Some(NoteToMidiNumber('c', 4, false)), Infinite, Square, 1.0, [], false, false))
  {
    assert "0c" == "0" + "c";
    NoteOfDigitsThen("0", "c", bpm);
    assert DigitsValue("0") == 0;
    MiddleCAfterZero("0c", bpm);
  }

  /** The compositions `0c` and `0-` are one note each, of infinite duration. */
  lemma ZeroDurationNotes(bpm: nat)
    ensures CompositionOf("0c", bpm) == [Note(Some(NoteToMidiNumber('c', 4, false)), Infinite, Square, 1.0, [], false, false)]
    ensures CompositionOf("0-", bpm) == [RestNote(Infinite)]
  {
    SplitWord("0c");
    ZeroNoteToken(bpm);
    SplitWord("0-");
    assert "0-" == "0" + "-";
    RestToken("0", bpm);
  }

  /**
   * A note `0c` lasts forever, so generateAudioBuffer never returns on it,
   * while the rest `0-` throws the RangeError, whatever the tempo.
   */
  lemma ZeroNoteDiverges(bpm: nat, tone: Tone)
    ensures AudioBufferOf("0c", bpm, tone) == Diverges
    ensures AudioBufferOf("0-", bpm, tone) == Thrown(InvalidArrayLength)
  {
    ZeroDurationNotes(bpm);
    FirstInfiniteDecides(CompositionOf("0c", bpm), 0, tone);
    FirstInfiniteDecides(CompositionOf("0-", bpm), 0, tone);
  }

  /** The synthesizer object; its tempo is set once, to 120. */
  class Synthesizer {
    const sampleRate: nat
    var bpm: nat

    constructor()
      ensures sampleRate == SampleRate && bpm == 120
    {
      sampleRate := SampleRate;
      bpm := 120;
    }

    method ParseNote(input: string) returns (r: Result<Note, string>)
      ensures r == NoteOf(input, bpm)
    {
      var t := Trim(input);
      if |t| == 0 {
        return Failure(KtMidiParser.EmptyNoteText);
      }
      var i := CountLeadingDigits(t);
      if i == 0 {
        return Failure(KtMidiParser.MissingDurationIn(t));
      }
      r := ParseAfterDuration(t, DigitsValue(t[..i]), t[i..]);
    }

    /** The rest of parseNote once the duration is read. */
    method ParseAfterDuration(t: string, value: nat, rest: string) returns (r: Result<Note, string>)
      ensures r == NoteAfterDuration(t, value, rest, bpm)
    {
      if |rest| > 0 && rest[0] == '(' {
        r := ParseArpeggio(value, rest);
        return;
      }
      var j := 0;
      var sharp := false;
      if j < |rest| && rest[j] == '#' {
        sharp := true;
        j := j + 1;
      }
      if j >= |rest| {
        return Failure(KtMidiParser.MissingLetterIn(t));
      }
      var noteChar := rest[j];
      if noteChar == '-' {
        return Success(RestNote(DurationToSeconds(value, bpm)));
      }
      var lower := ToLower(noteChar);
      if !IsNoteLetter(lower) {
        return Failure(KtMidiParser.InvalidLetterText(noteChar));
      }
      j := j + 1;
      var after := rest[j..];
      var od := CountLeadingDigits(after);
      var octave := 4;
      if od > 0 {
        octave := DigitsValue(after[..od]);
      }
      var (wave, volume) := KtMidiParser.Tail(after[od..]);
      r := Success(Note(Some(NoteToMidiNumber(lower, octave, sharp)), DurationToSeconds(value, bpm), wave, volume, [], false, false));
    }

    method ParseArpeggio(value: nat, input: string) returns (r: Result<Note, string>)
      requires |input| > 0 && input[0] == '('
      ensures r == ArpeggioOf(value, input, bpm)
    {
      var i := 1;
      var content := "";
      var foundClose := false;
      while i < |input|
        invariant 1 <= i <= |input|
        invariant content == input[1..i] && ')' !in content
        invariant !foundClose
      {
        if input[i] == ')' {
          foundClose := true;
          break;
        }
        content := content + [input[i]];
        i := i + 1;
      }
      if !foundClose {
        assert input[1..] == content;
        return Failure(KtMidiParser.MissingCloseText);
      }
      assert input[1..][..i - 1] == content && input[1..][i - 1] == ')';
      IndexOfUnique(input[1..], ')', i - 1);
      i := i + 1;
      var members := SplitTrimmed(content);
      var pitches: seq<nat> := [];
      var k := 0;
      while k < |members|
        invariant k <= |members|
        invariant MemberRun(members, k, pitches) == MemberRun(members, 0, [])
      {
        var p := MemberPitch(members[k]);
        if p.Failure? {
          return Failure(p.error);
        }
        pitches := pitches + [p.value];
        k := k + 1;
      }
      assert input[1..][i - 1..] == input[i..];
      var (wave, volume) := KtMidiParser.Tail(input[i..]);
      r := Success(Note(None, DurationToSeconds(value, bpm), wave, volume, pitches, false, false));
    }

    /** A `--` token is skipped; any other is parsed as a note. */
    method ParseToken(token: string) returns (r: Result<Note, string>)
      ensures r == TokenResult(token, bpm)
    {
      r := Failure(SkippedFlag);
      if !StartsWith(token, "--") {
        r := ParseNote(token);
      }
    }

    method ParseComposition(composition: string) returns (notes: seq<Note>)
      ensures notes == CompositionOf(composition, bpm)
    {
      var tokens := SplitTrimmed(composition);
      notes := ParseTokens(tokens);
    }

    /** The loop of parseComposition: each token's note, if any, appended in order. */
    method ParseTokens(tokens: seq<string>) returns (notes: seq<Note>)
      ensures notes == KtMidiParser.Successes(ParseAll(tokens, bpm))
    {
      ghost var results := ParseAll(tokens, bpm);
      notes := [];
      var k := 0;
      while k < |tokens|
        invariant k <= |tokens|
        invariant notes == KtMidiParser.Successes(results[..k])
      {
        var n := ParseToken(tokens[k]);
        ParseAllAt(tokens, bpm, k);
        KtMidiParser.SuccessesStep(results, k);
        if n.Success? {
          notes := notes + [n.value];
        }
        k := k + 1;
      }
      assert results[..k] == results;
    }

    /**
     * generateNoteSamples. On a pitched or arpeggio note of infinite
     * duration it returns `Diverges` where the tone loop would count for ever.
     */
    method GenerateNoteSamples(note: Note, tone: Tone) returns (r: Rendered)
      ensures r == NoteSamples(note, tone)
    {
      if note.duration.Infinite? {
        if |note.arpeggio| > 0 || note.pitch.Some? {
          return Diverges;
        }
        return Thrown(InvalidArrayLength);
      }
      if |note.arpeggio| > 0 {
        var d := Share(note.duration, |note.arpeggio|);
        var samples := [];
        var k := 0;
        while k < |note.arpeggio|
          invariant k <= |note.arpeggio|
          invariant samples == MemberSamples(note.arpeggio[..k], d, note, tone)
        {
          assert note.arpeggio[..k + 1][..k] == note.arpeggio[..k];
          samples := samples + tone(note.arpeggio[k], d, note);
          k := k + 1;
        }
        assert note.arpeggio[..k] == note.arpeggio;
        return Samples(samples);
      }
      if note.pitch.Some? {
        return Samples(tone(note.pitch.value, note.duration, note));
      }
      r := Samples(seq(JsSampleCount(note.duration).value, _ => 0.0));
    }

    method GenerateAudioBuffer(composition: string, tone: Tone) returns (r: Rendered)
      ensures r == AudioBufferOf(composition, bpm, tone)
    {
      var notes := ParseComposition(composition);
      r := RenderNotes(this, notes, tone);
    }
  }

  /** Once a prefix of the notes has no buffer, neither has the whole: the first note without one decides. */
  lemma {:induction false} FailurePersists(notes: seq<Note>, k: nat, tone: Tone)
    requires k <= |notes| && !NotesSamples(notes[..k], tone).Samples?
    ensures NotesSamples(notes, tone) == NotesSamples(notes[..k], tone)
    decreases |notes|
  {
    if k < |notes| {
      var init := notes[..|notes| - 1];
      assert init[..k] == notes[..k];
      FailurePersists(init, k, tone);
    } else {
      assert notes[..k] == notes;
    }
  }

  /**
   * The loop of generateAudioBuffer: each note's samples appended in turn; a
   * note that throws or never returns ends it with that outcome.
   */
  method RenderNotes(synth: Synthesizer, notes: seq<Note>, tone: Tone) returns (r: Rendered)
    ensures r == NotesSamples(notes, tone)
  {
    var samples := [];
    var k := 0;
    while k < |notes|
      invariant k <= |notes|
      invariant NotesSamples(notes[..k], tone) == Samples(samples)
    {
      assert notes[..k + 1][..k] == notes[..k];
      var s := synth.GenerateNoteSamples(notes[k], tone);
      if !s.Samples? {
        assert NotesSamples(notes[..k + 1], tone) == s;
        FailurePersists(notes, k + 1, tone);
        return s;
      }
      samples := samples + s.samples;
      k := k + 1;
    }
    assert notes[..k] == notes;
    r := Samples(samples);
  }

  // ---------------------------------------------------------------------
  // MidiPlayer: volume and mute

  /** `Math.max(0, Math.min(1, volume))`. */
  function ClampVolume(v: real): (r: real)
    ensures 0.0 <= r <= 1.0
    ensures 0.0 <= v <= 1.0 ==> r == v
    ensures v < 0.0 ==> r == 0.0
    ensures v > 1.0 ==> r == 1.0
  {
    if v < 0.0 then 0.0 else if v > 1.0 then 1.0 else v
  }

  /**
   * The player's volume state. The audio graph is left out: the gain it
   * would carry is `Gain()`, zero while muted and the volume otherwise.
   */
  class Player {
    var currentVolume: real
    var isMuted: bool
    var volumeBeforeMute: real

    ghost predicate Valid()
      reads this
    {
      0.0 <= currentVolume <= 1.0
    }

    function Gain(): (g: real)
      reads this
      ensures isMuted ==> g == 0.0
      ensures !isMuted ==> g == currentVolume
    {
      if isMuted then 0.0 else currentVolume
    }

    constructor()
      ensures Valid() && currentVolume == 1.0 && !isMuted && volumeBeforeMute == 1.0
    {
      currentVolume := 1.0;
      isMuted := false;
      volumeBeforeMute := 1.0;
    }

    method SetVolume(volume: real)
      requires Valid()
      modifies this
      ensures Valid() && currentVolume == ClampVolume(volume)
      ensures isMuted == old(isMuted) && volumeBeforeMute == old(volumeBeforeMute)
    {
      currentVolume := ClampVolume(volume);
    }

    method GetVolume() returns (v: real)
      requires Valid()
      ensures v == currentVolume && 0.0 <= v <= 1.0
    {
      v := currentVolume;
    }

    method Mute()
      requires Valid()
      modifies this
      ensures Valid() && isMuted && currentVolume == old(currentVolume)
      ensures old(isMuted) ==> volumeBeforeMute == old(volumeBeforeMute)
      ensures !old(isMuted) ==> volumeBeforeMute == old(currentVolume)
    {
      if !isMuted {
        volumeBeforeMute := currentVolume;
        isMuted := true;
      }
    }

    method Unmute()
      requires Valid()
      modifies this
      ensures Valid() && !isMuted && currentVolume == old(currentVolume) && volumeBeforeMute == old(volumeBeforeMute)
    {
      if isMuted {
        isMuted := false;
      }
    }

    method ToggleMute() returns (muted: bool)
      requires Valid()
      modifies this
      ensures Valid() && muted == isMuted && isMuted == !old(isMuted) && currentVolume == old(currentVolume)
      ensures old(isMuted) ==> volumeBeforeMute == old(volumeBeforeMute)
      ensures !old(isMuted) ==> volumeBeforeMute == old(currentVolume)
    {
      if isMuted {
        Unmute();
      } else {
        Mute();
      }
      muted := isMuted;
    }
  }

  /** Muting twice is muting once, and muting then unmuting restores the gain of an unmuted player. */
  method MuteRoundTrip(p: Player)
    requires p.Valid() && !p.isMuted
    modifies p
    ensures p.Valid() && !p.isMuted && p.currentVolume == old(p.currentVolume) && p.Gain() == old(p.Gain())
  {
    p.Mute();
    p.Mute();
    assert p.Gain() == 0.0;
    p.Unmute();
  }
}
