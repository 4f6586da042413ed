/**
 * The note grammar of the terminal player (src/midi_composer/engine.rs):
 * pitch and duration arithmetic, the per-note parser with its modifiers,
 * arpeggios and rests, the whitespace/parenthesis-aware token scanner, the
 * older private parser used for server-side validation, channel flag
 * overrides and the mixing of channel buffers.
 */
module MidiEngine {
  import opened Wrappers
  import opened Text
  import MidiChannels

  datatype Waveform = Square | Triangle | Sawtooth | Pulse

  /** A duration in seconds; f32 division by a zero note value or bpm gives +infinity. */
  datatype Seconds = Finite(secs: real) | Infinite

  datatype Note = Note(
    pitch: Option<nat>,
    duration: Seconds,
    waveform: Waveform,
    volume: real,
    arpeggio: seq<nat>,
    adsr: bool,
    vibrato: bool)

  /** The octave, waveform and volume that follow a note letter. */
  datatype Modifiers = Modifiers(octave: nat, waveform: Waveform, volume: real)

  /**
   * Why parse_note or parse_notes rejects its input, with the note text,
   * character or octave the engine quotes; `Message` gives the text the
   * engine reports.
   */
  datatype NoteError =
    EmptyNote
    | MissingDuration(note: string)
    | InvalidDuration(digits: string)
    | MissingLetter(note: string)
    | InvalidLetter(letter: char)
    | BadVolume
    | UnexpectedChar(ch: char)
    | UnexpectedAfterWaveform(ch: char)
    | InvalidOctave(digits: string)
    | OctaveOutOfRange(octave: nat)
    | MissingClose
    | EmptyArpeggio
    | InvalidArpeggioNote(member: string)
    | InvalidArpeggioOctave(digits: string)
    | UnexpectedInArpeggio(ch: char)
    | MissingArpeggioLetter(member: string)
    | InvalidArpeggioLetter(letter: char)

  /** `'text'`, the quoting of the engine's messages. */
  function Quoted(text: string): string
  {
    "'" + text + "'"
  }

  function Message(e: NoteError): string
  {
    match e
    case EmptyNote => "Empty note string"
    case MissingDuration(note) => "Missing duration in note: " + Quoted(note)
    case InvalidDuration(digits) => "Invalid duration number: " + Quoted(digits)
    case MissingLetter(note) => "Missing note letter in: " + Quoted(note)
    case InvalidLetter(c) => "Invalid note letter: " + Quoted([c])
    case BadVolume => "Volume must be specified as .N where N is 0-9"
    case UnexpectedChar(c) => "Unexpected character: " + Quoted([c])
    case UnexpectedAfterWaveform(c) => "Unexpected character after waveform: " + Quoted([c])
    case InvalidOctave(digits) => "Invalid octave number: " + Quoted(digits)
    case OctaveOutOfRange(o) => "Octave out of range (1-8): " + NatToString(o)
    case MissingClose => "Missing closing parenthesis in arpeggio"
    case EmptyArpeggio => "Empty arpeggio"
    case InvalidArpeggioNote(m) => "Invalid arpeggio note: " + Quoted(m)
    case InvalidArpeggioOctave(digits) => "Invalid octave in arpeggio: " + Quoted(digits)
    case UnexpectedInArpeggio(c) => "Unexpected character in arpeggio modifiers: " + Quoted([c])
    case MissingArpeggioLetter(m) => "Missing note letter in arpeggio: " + Quoted(m)
    case InvalidArpeggioLetter(c) => "Invalid note letter in arpeggio: " + Quoted([c])
  }

  const NoChannels := "No channels to play"

  predicate IsNoteLetter(c: char)
  {
    'a' <= c <= 'g'
  }

  predicate IsWaveformLetter(c: char)
  {
    c == 'q' || c == 't' || c == 's' || c == 'p'
  }

  /** Semitones above C of a lower-case note letter; any other character counts as C. */
  function Semitone(c: char): (s: nat)
    ensures s <= 11
  {
    match c
    case 'c' => 0
    case 'd' => 2
    case 'e' => 4
    case 'f' => 5
    case 'g' => 7
    case 'a' => 9
    case 'b' => 11
    case _ => 0
  }

  /** The waveform a modifier letter selects; no letter selects the default, Square. */
  function WaveformOf(letter: Option<char>): Waveform
  {
    match letter
    case Some('t') => Triangle
    case Some('s') => Sawtooth
    case Some('p') => Pulse
    case _ => Square
  }

  /** `.N` gives N/10; no volume modifier gives full volume. */
  function VolumeOf(digit: Option<char>): (v: real)
    requires digit.Some? ==> IsDigit(digit.value)
    ensures 0.0 <= v <= 1.0
  {
    match digit
    case Some(d) => DigitValue(d) as real / 10.0
    case None => 1.0
  }

  /** MIDI note number: 12 + 12*octave + semitone + sharp, clamped to 0..127. */
  function NoteToMidiNumber(note: char, octave: nat, sharp: bool): (r: nat)
    ensures r <= 127
    ensures IsNoteLetter(note) && octave <= 8 && !(note == 'b' && sharp) ==>
      r / 12 == octave + 1 && r % 12 == Semitone(note) + (if sharp then 1 else 0)
  {
    var midi := 12 + octave * 12 + Semitone(note) + (if sharp then 1 else 0);
    if midi > 127 then 127 else midi
  }

  /** Seconds of a 1/value note at `bpm` beats per minute: (4/value) * (60/bpm). */
  function DurationToSeconds(value: nat, bpm: nat): (r: Seconds)
    ensures r.Finite? <==> value > 0 && bpm > 0
    ensures r.Finite? ==> r.secs * (value * bpm) as real == 240.0
  {
    if value == 0 || bpm == 0 then Infinite
    else Finite((4.0 / value as real) * (60.0 / bpm as real))
  }

  lemma DurationExamples()
    ensures DurationToSeconds(4, 120) == Finite(0.5)
    ensures DurationToSeconds(8, 120) == Finite(0.25)
    ensures DurationToSeconds(1, 120) == Finite(2.0)
  {
  }

  function RestNote(duration: Seconds): Note
  {
    Note(None, duration, Square, 1.0, [], false, false)
  }

  // ---------------------------------------------------------------------
  // parse_note_modifiers

  /**
   * The first loop of parse_note_modifiers, resumed at position `i` with the
   * octave digits collected so far: digits accumulate; a waveform letter or
   * a `.N` volume ends the loop; anything else is an error.  The result is
   * the position reached, the octave digits, the waveform letter and the
   * volume digit.
   */
  function ModifierScan(rest: string, i: nat, octave: string)
    : Result<(nat, string, Option<char>, Option<char>), NoteError>
    requires i <= |rest|
    decreases |rest| - i
  {
    if i == |rest| then Success((i, octave, None, None))
    else if IsDigit(rest[i]) then ModifierScan(rest, i + 1, octave + [rest[i]])
    else if IsWaveformLetter(rest[i]) then Success((i + 1, octave, Some(rest[i]), None))
    else if rest[i] == '.' then
      if i + 1 < |rest| && IsDigit(rest[i + 1]) then Success((i + 2, octave, None, Some(rest[i + 1])))
      else Failure(BadVolume)
    else Failure(UnexpectedChar(rest[i]))
  }

  lemma ModifierScanShape(rest: string, i: nat, octave: string)
    requires i <= |rest| && AllDigits(octave)
    ensures var r := ModifierScan(rest, i, octave);
      r.Success? ==>
        && r.value.0 <= |rest|
        && AllDigits(r.value.1)
        && (r.value.2.Some? ==> IsWaveformLetter(r.value.2.value))
        && (r.value.3.Some? ==> IsDigit(r.value.3.value))
    decreases |rest| - i
  {
    if i < |rest| && IsDigit(rest[i]) {
      ModifierScanShape(rest, i + 1, octave + [rest[i]]);
    }
  }

  /** The volume check after the first loop: only a further `.N` may follow. */
  function ModifierTail(rest: string, i: nat, volume: Option<char>): Result<Option<char>, NoteError>
  {
    if i >= |rest| then Success(volume)
    else if rest[i] == '.' then
      if i + 1 < |rest| && IsDigit(rest[i + 1]) then Success(Some(rest[i + 1])) else Failure(BadVolume)
    else Failure(UnexpectedAfterWaveform(rest[i]))
  }

  /** The octave text as a u8, defaulting to 4, then required to lie in 1..8. */
  function OctaveOf(octave: string): Result<nat, NoteError>
    requires AllDigits(octave)
  {
    if |octave| == 0 then Success(4)
    else if DigitsValue(octave) > 255 then Failure(InvalidOctave(octave))
    else if !(1 <= DigitsValue(octave) <= 8) then Failure(OctaveOutOfRange(DigitsValue(octave)))
    else Success(DigitsValue(octave))
  }

  /** parse_note_modifiers on the characters after the note letter. */
  function NoteModifiers(rest: string): (r: Result<Modifiers, NoteError>)
    ensures r.Success? ==> 1 <= r.value.octave <= 8 && 0.0 <= r.value.volume <= 1.0
    ensures |rest| > 0 && !IsDigit(rest[0]) && !IsWaveformLetter(rest[0]) && rest[0] != '.' ==> r.Failure?
  {
    ModifierScanShape(rest, 0, "");
    match ModifierScan(rest, 0, "")
    case Failure(e) => Failure(e)
    case Success((i, octave, wave, vol)) =>
      match ModifierTail(rest, i, vol)
      case Failure(e) => Failure(e)
      case Success(volume) =>
        match OctaveOf(octave)
        case Failure(e) => Failure(e)
        case Success(o) => Success(Modifiers(o, WaveformOf(wave), VolumeOf(volume)))
  }

  method ParseNoteModifiers(rest: string) returns (r: Result<Modifiers, NoteError>)
    ensures r == NoteModifiers(rest)
  {
    var octave := "";
    var wave: Option<char> := None;
    var vol: Option<char> := None;
    var i: nat := 0;
    var stopped := false;
    while i < |rest| && !stopped
      invariant i <= |rest|
      invariant !stopped ==> ModifierScan(rest, i, octave) == ModifierScan(rest, 0, "")
      invariant !stopped ==> wave.None? && vol.None?
      invariant stopped ==> ModifierScan(rest, 0, "") == Success((i, octave, wave, vol))
      decreases |rest| - i, !stopped
    {
      var ch := rest[i];
      if IsDigit(ch) {
        octave := octave + [ch];
        i := i + 1;
      } else if IsWaveformLetter(ch) {
        wave := Some(ch);
        i := i + 1;
        stopped := true;
      } else if ch == '.' {
        if i + 1 < |rest| && IsDigit(rest[i + 1]) {
          vol := Some(rest[i + 1]);
          i := i + 2;
          stopped := true;
        } else {
          return Failure(BadVolume);
        }
      } else {
        return Failure(UnexpectedChar(ch));
      }
    }
    assert ModifierScan(rest, 0, "") == Success((i, octave, wave, vol));
    ModifierScanShape(rest, 0, "");
    if i < |rest| {
      if rest[i] == '.' {
        if i + 1 < |rest| && IsDigit(rest[i + 1]) {
          vol := Some(rest[i + 1]);
        } else {
          return Failure(BadVolume);
        }
      } else {
        return Failure(UnexpectedAfterWaveform(rest[i]));
      }
    }
    var o := 4;
    if |octave| > 0 {
      if DigitsValue(octave) > 255 {
        return Failure(InvalidOctave(octave));
      }
      o := DigitsValue(octave);
    }
    if !(1 <= o <= 8) {
      return Failure(OctaveOutOfRange(o));
    }
    r := Success(Modifiers(o, WaveformOf(wave), VolumeOf(vol)));
  }

  // ---------------------------------------------------------------------
  // parse_arpeggio (public parser)

  /**
   * One whitespace-separated arpeggio member: `#x` is x sharp in octave 4
   * whatever follows (x is neither lower-cased nor checked); otherwise a
   * letter a-g (either case) and an optional u8 octave, default 4.
   */
  function ArpeggioMember(m: string): (r: Result<nat, NoteError>)
    ensures r.Success? ==> r.value <= 127
    ensures |m| >= 2 && m[0] == '#' ==> r == Success(NoteToMidiNumber(m[1], 4, true))
    ensures |m| > 0 && m[0] != '#' && !IsNoteLetter(ToLower(m[0])) ==> r.Failure?
  {
    if |m| == 0 then Failure(MissingArpeggioLetter(m))
    else if m[0] == '#' then
      if |m| >= 2 then Success(NoteToMidiNumber(m[1], 4, true)) else Failure(InvalidArpeggioNote(m))
    else
      var c := ToLower(m[0]);
      if !IsNoteLetter(c) then Failure(InvalidArpeggioNote([c]))
      else if |m| == 1 then Success(NoteToMidiNumber(c, 4, false))
      else
        match ParseUnsigned(m[1..], 256)
        case None => Failure(InvalidArpeggioOctave(m[1..]))
        case Some(o) => Success(NoteToMidiNumber(c, o, false))
  }

  /** One member of an arpeggio in the private parser: `[#]letter` followed by note modifiers. */
  function LegacyArpeggioMember(m: string): (r: Result<nat, NoteError>)
    ensures r.Success? ==> 12 <= r.value <= 108
  {
    var sharp := |m| > 0 && m[0] == '#';
    var body := if sharp then m[1..] else m;
    if |body| == 0 then Failure(MissingArpeggioLetter(m))
    else
      var c := ToLower(body[0]);
      if !IsNoteLetter(c) then Failure(InvalidArpeggioLetter(c))
      else
        match NoteModifiers(body[1..])
        case Failure(e) => Failure(e)
        case Success(mods) => Success(LegacyPitch(c, mods.octave, sharp))
  }

  /** The private parser's pitch: 12*octave + semitone + sharp, with no +12 and no clamp. */
  function LegacyPitch(c: char, octave: nat, sharp: bool): nat
  {
    12 * octave + Semitone(c) + (if sharp then 1 else 0)
  }

  /** The member loop resumed at member `k` with pitches `acc`; the first failing member stops it. */
  function MemberPitches(members: seq<string>, k: nat, acc: seq<nat>, legacy: bool): (r: Result<seq<nat>, NoteError>)
    requires k <= |members|
    ensures r.Success? ==> |r.value| == |acc| + |members| - k && r.value[..|acc|] == acc
    decreases |members| - k
  {
    if k == |members| then Success(acc)
    else
      var p := if legacy then LegacyArpeggioMember(members[k]) else ArpeggioMember(members[k]);
      match p
      case Failure(e) => Failure(e)
      case Success(pitch) => MemberPitches(members, k + 1, acc + [pitch], legacy)
  }

  /**
   * The public parser's loop over the text after `)`: waveform letters
   * (the last one wins) until a `.N` volume, which ends the loop.
   */
  function ArpeggioTail(rest: string, i: nat, wave: Option<char>): Result<(Option<char>, Option<char>), NoteError>
    requires i <= |rest|
    requires wave.Some? ==> IsWaveformLetter(wave.value)
    ensures var r := ArpeggioTail(rest, i, wave);
      r.Success? ==> (r.value.0.Some? ==> IsWaveformLetter(r.value.0.value)) && (r.value.1.Some? ==> IsDigit(r.value.1.value))
    decreases |rest| - i
  {
    if i == |rest| then Success((wave, None))
    else if IsWaveformLetter(rest[i]) then ArpeggioTail(rest, i + 1, Some(rest[i]))
    else if rest[i] == '.' then
      if i + 1 < |rest| && IsDigit(rest[i + 1]) then Success((wave, Some(rest[i + 1]))) else Failure(BadVolume)
    else Failure(UnexpectedInArpeggio(rest[i]))
  }

  /**
   * An arpeggio note whose text after `(` is `after`.  Both parsers need a
   * `)` and at least one member.  The public parser then reads waveform and
   * volume modifiers after `)`; the private parser ignores that text.
   */
  function Arpeggio(value: nat, bpm: nat, after: string, legacy: bool): (r: Result<Note, NoteError>)
    ensures ')' !in after ==> r == Failure(MissingClose)
    ensures r.Success? ==>
      && r.value.pitch.None?
      && r.value.duration == DurationToSeconds(value, bpm)
      && |r.value.arpeggio| == |Words(after[..IndexOf(after, ')')])| > 0
      && !r.value.adsr && !r.value.vibrato
    ensures r.Success? && legacy ==> r.value.waveform == Square && r.value.volume == 1.0
  {
    if ')' !in after then Failure(MissingClose)
    else
      var close := IndexOf(after, ')');
      var members := Words(after[..close]);
      if |members| == 0 then Failure(EmptyArpeggio)
      else
        match MemberPitches(members, 0, [], legacy)
        case Failure(e) => Failure(e)
        case Success(pitches) =>
          if legacy then Success(Note(None, DurationToSeconds(value, bpm), Square, 1.0, pitches, false, false))
          else
            match ArpeggioTail(after[close + 1..], 0, None)
            case Failure(e) => Failure(e)
            case Success((wave, vol)) =>
              Success(Note(None, DurationToSeconds(value, bpm), WaveformOf(wave), VolumeOf(vol), pitches, false, false))
  }

  method ParseArpeggio(value: nat, bpm: nat, after: string, legacy: bool) returns (r: Result<Note, NoteError>)
    ensures r == Arpeggio(value, bpm, after, legacy)
  {
    var content := "";
    var j := 0;
    var found := false;
    while j < |after| && !found
      invariant j <= |after|
      invariant !found ==> ')' !in after[..j] && content == after[..j]
      invariant found ==> 1 <= j && after[j - 1] == ')' && ')' !in after[..j - 1] && content == after[..j - 1]
      decreases |after| - j
    {
      if after[j] == ')' {
        found := true;
      } else {
        content := content + [after[j]];
      }
      j := j + 1;
    }
    if !found {
      assert after[..j] == after;
      return Failure(MissingClose);
    }
    IndexOfUnique(after, ')', j - 1);
    var members := Words(content);
    if |members| == 0 {
      return Failure(EmptyArpeggio);
    }
    var pitches := ReadMembers(members, legacy);
    if pitches.Failure? {
      return Failure(pitches.error);
    }
    if legacy {
      return Success(Note(None, DurationToSeconds(value, bpm), Square, 1.0, pitches.value, false, false));
    }
    var tail := ReadArpeggioTail(after[j..]);
    if tail.Failure? {
      return Failure(tail.error);
    }
    var (wave, vol) := tail.value;
    r := Success(Note(None, DurationToSeconds(value, bpm), WaveformOf(wave), VolumeOf(vol), pitches.value, false, false));
  }

  /** The member loop of parse_arpeggio: each member's pitch in order, or the first member's error. */
  method ReadMembers(members: seq<string>, legacy: bool) returns (r: Result<seq<nat>, NoteError>)
    ensures r == MemberPitches(members, 0, [], legacy)
  {
    var pitches: seq<nat> := [];
    var k := 0;
    while k < |members|
      invariant k <= |members|
      invariant MemberPitches(members, k, pitches, legacy) == MemberPitches(members, 0, [], legacy)
    {
      var p := if legacy then LegacyArpeggioMember(members[k]) else ArpeggioMember(members[k]);
      if p.Failure? {
        return Failure(p.error);
      }
      pitches := pitches + [p.value];
      k := k + 1;
    }
    r := Success(pitches);
  }

  /** The public parser's loop over the text after `)`. */
  method ReadArpeggioTail(rest: string) returns (r: Result<(Option<char>, Option<char>), NoteError>)
    ensures r == ArpeggioTail(rest, 0, None)
  {
    var wave: Option<char> := None;
    var vol: Option<char> := None;
    var i := 0;
    while i < |rest|
      invariant i <= |rest|
      invariant wave.Some? ==> IsWaveformLetter(wave.value)
      invariant ArpeggioTail(rest, i, wave) == ArpeggioTail(rest, 0, None)
    {
      var ch := rest[i];
      if IsWaveformLetter(ch) {
        wave := Some(ch);
        i := i + 1;
      } else if ch == '.' {
        if i + 1 < |rest| && IsDigit(rest[i + 1]) {
          vol := Some(rest[i + 1]);
          break;
        } else {
          return Failure(BadVolume);
        }
      } else {
        return Failure(UnexpectedInArpeggio(ch));
      }
    }
    r := Success((wave, vol));
  }

  // ---------------------------------------------------------------------
  // parse_note

  /**
   * One note token.  After trimming: a decimal u8 note value; then either an
   * arpeggio `(`...`)`, or an optional `#`, a letter (either case) and its
   * modifiers, where `-` is a rest.  `legacy` selects the private parser,
   * whose pitch lacks the +12 and whose arpeggios differ.
   */
  function ParseNoteText(input: string, bpm: nat, legacy: bool): (r: Result<Note, NoteError>)
    ensures |Trim(input)| == 0 ==> r == Failure(EmptyNote)
    ensures |Trim(input)| > 0 && !IsDigit(Trim(input)[0]) ==> r == Failure(MissingDuration(Trim(input)))
    ensures r.Success? ==> 0.0 <= r.value.volume <= 1.0
    ensures r.Success? && r.value.pitch.Some? ==>
      r.value.arpeggio == [] && (if legacy then 12 <= r.value.pitch.value <= 108 else 24 <= r.value.pitch.value <= 120)
  {
    var s := Trim(input);
    if |s| == 0 then Failure(EmptyNote)
    else
      var d := LeadingDigits(s);
      if d == 0 then Failure(MissingDuration(s))
      else if DigitsValue(s[..d]) > 255 then Failure(InvalidDuration(s[..d]))
      else NoteAfterValue(s, DigitsValue(s[..d]), bpm, s[d..], legacy)
  }

  /** The part of parse_note after the note value: arpeggio, rest or pitched note; `note` is the trimmed note quoted in errors. */
  function NoteAfterValue(note: string, value: nat, bpm: nat, rest: string, legacy: bool): (r: Result<Note, NoteError>)
    ensures r.Success? ==> 0.0 <= r.value.volume <= 1.0
    ensures r.Success? && r.value.pitch.Some? ==>
      r.value.arpeggio == [] && (if legacy then 12 <= r.value.pitch.value <= 108 else 24 <= r.value.pitch.value <= 120)
  {
    if |rest| > 0 && rest[0] == '(' then Arpeggio(value, bpm, rest[1..], legacy)
    else SingleNote(note, value, bpm, rest, legacy)
  }

  /** A note that is not an arpeggio: an optional `#`, then `-` for a rest or a letter and its modifiers. */
  function SingleNote(note: string, value: nat, bpm: nat, rest: string, legacy: bool): (r: Result<Note, NoteError>)
    ensures r.Success? ==> 0.0 <= r.value.volume <= 1.0
    ensures r.Success? && r.value.pitch.Some? ==>
      r.value.arpeggio == [] && (if legacy then 12 <= r.value.pitch.value <= 108 else 24 <= r.value.pitch.value <= 120)
  {
    var sharp := |rest| > 0 && rest[0] == '#';
    var body := if sharp then rest[1..] else rest;
    if |body| == 0 then Failure(MissingLetter(note))
    else
      var letter := ToLower(body[0]);
      if letter == '-' then Success(RestNote(DurationToSeconds(value, bpm)))
      else if !IsNoteLetter(letter) then Failure(InvalidLetter(letter))
      else
        match NoteModifiers(body[1..])
        case Failure(e) => Failure(e)
        case Success(mods) => Success(PitchedNote(value, bpm, letter, sharp, mods, legacy))
  }

  function PitchedNote(value: nat, bpm: nat, letter: char, sharp: bool, mods: Modifiers, legacy: bool): (n: Note)
    requires IsNoteLetter(letter) && 1 <= mods.octave <= 8 && 0.0 <= mods.volume <= 1.0
    ensures n.pitch.Some? && n.arpeggio == [] && 0.0 <= n.volume <= 1.0
    ensures if legacy then 12 <= n.pitch.value <= 108 else 24 <= n.pitch.value <= 120
  {
    var pitch := if legacy then LegacyPitch(letter, mods.octave, sharp) else NoteToMidiNumber(letter, mods.octave, sharp);
    Note(Some(pitch), DurationToSeconds(value, bpm), mods.waveform, mods.volume, [], false, false)
  }

  method ParseNote(input: string, bpm: nat, legacy: bool) returns (r: Result<Note, NoteError>)
    ensures r == ParseNoteText(input, bpm, legacy)
  {
    var s := Trim(input);
    if |s| == 0 {
      return Failure(EmptyNote);
    }
    var d := CountLeadingDigits(s);
    if d == 0 {
      return Failure(MissingDuration(s));
    }
    if DigitsValue(s[..d]) > 255 {
      return Failure(InvalidDuration(s[..d]));
    }
    var value := DigitsValue(s[..d]);
    r := ParseNoteBody(s, value, bpm, s[d..], legacy);
  }

  /** The peek loop that collects the note value's digits. */
  method CountLeadingDigits(s: string) returns (d: nat)
    ensures d == LeadingDigits(s)
  {
    d := 0;
    while d < |s| && IsDigit(s[d])
      invariant d <= |s| && AllDigits(s[..d])
    {
      d := d + 1;
    }
    LeadingDigitsExact(s, d);
  }

  method ParseNoteBody(note: string, value: nat, bpm: nat, rest: string, legacy: bool) returns (r: Result<Note, NoteError>)
    ensures r == NoteAfterValue(note, value, bpm, rest, legacy)
  {
    if |rest| > 0 && rest[0] == '(' {
      r := ParseArpeggio(value, bpm, rest[1..], legacy);
      return;
    }
    var sharp := |rest| > 0 && rest[0] == '#';
    var body := if sharp then rest[1..] else rest;
    if |body| == 0 {
      return Failure(MissingLetter(note));
    }
    var letter := ToLower(body[0]);
    if letter == '-' {
      return Success(RestNote(DurationToSeconds(value, bpm)));
    }
    if !IsNoteLetter(letter) {
      return Failure(InvalidLetter(letter));
    }
    var mods := ParseNoteModifiers(body[1..]);
    if mods.Failure? {
      return Failure(mods.error);
    }
    r := Success(PitchedNote(value, bpm, letter, sharp, mods.value, legacy));
  }

  /** The modifier letter that selects each waveform. */
  function WaveformLetter(w: Waveform): (c: char)
    ensures IsWaveformLetter(c) && WaveformOf(Some(c)) == w
  {
    match w
    case Square => 'q'
    case Triangle => 't'
    case Sawtooth => 's'
    case Pulse => 'p'
  }

  /** The canonical text of a pitched note: value, optional `#`, letter, octave, waveform, `.N`. */
  function FormatNote(value: nat, sharp: bool, letter: char, octave: nat, wave: Waveform, volume: nat): string
    requires IsNoteLetter(letter) && 1 <= octave <= 8 && volume <= 9
  {
    NatToString(value) + (if sharp then "#" else "") + [letter, DigitChar(octave), WaveformLetter(wave), '.', DigitChar(volume)]
  }

  /** The modifier text written for an octave, a waveform and a volume digit parses back to them. */
  lemma ModifiersRoundTrip(octave: nat, wave: Waveform, volume: nat)
    requires 1 <= octave <= 8 && volume <= 9
    ensures NoteModifiers([DigitChar(octave), WaveformLetter(wave), '.', DigitChar(volume)])
      == Success(Modifiers(octave, wave, volume as real / 10.0))
  {
    var mods := [DigitChar(octave), WaveformLetter(wave), '.', DigitChar(volume)];
    assert ModifierScan(mods, 1, [DigitChar(octave)]) == Success((2, [DigitChar(octave)], Some(WaveformLetter(wave)), None));
    assert "" + [mods[0]] == [DigitChar(octave)];
    assert ModifierScan(mods, 0, "") == Success((2, [DigitChar(octave)], Some(WaveformLetter(wave)), None));
    assert ModifierTail(mods, 2, None) == Success(Some(DigitChar(volume)));
    assert DigitsValue([DigitChar(octave)]) == octave by {
      assert [DigitChar(octave)][..0] == [];
    }
  }

  /** The text after the note value of a canonical pitched note parses back to its fields. */
  lemma NoteAfterValueRoundTrip(note: string, value: nat, sharp: bool, letter: char, octave: nat, wave: Waveform, volume: nat, bpm: nat)
    requires IsNoteLetter(letter) && 1 <= octave <= 8 && volume <= 9
    ensures NoteAfterValue(note, value, bpm, (if sharp then "#" else "") + [letter, DigitChar(octave), WaveformLetter(wave), '.', DigitChar(volume)], false)
      == Success(Note(Some(NoteToMidiNumber(letter, octave, sharp)), DurationToSeconds(value, bpm), wave, volume as real / 10.0, [], false, false))
  {
    var mods := [DigitChar(octave), WaveformLetter(wave), '.', DigitChar(volume)];
    var body := [letter] + mods;
    var rest := (if sharp then "#" else "") + body;
    assert rest[0] != '(';
    assert (|rest| > 0 && rest[0] == '#') == sharp;
    assert (if sharp then rest[1..] else rest) == body;
    assert ToLower(letter) == letter;
    ModifiersRoundTrip(octave, wave, volume);
    assert body[1..] == mods;
    var m := Modifiers(octave, wave, volume as real / 10.0);
    assert NoteAfterValue(note, value, bpm, rest, false) == Success(PitchedNote(value, bpm, letter, sharp, m, false));
    assert PitchedNote(value, bpm, letter, sharp, m, false) == Note(Some(NoteToMidiNumber(letter, octave, sharp)), DurationToSeconds(value, bpm), wave, volume as real / 10.0, [], false, false);
    assert rest == (if sharp then "#" else "") + [letter, DigitChar(octave), WaveformLetter(wave), '.', DigitChar(volume)];
  }

  /** Parsing the canonical text of a note gives back every field written into it. */
  lemma {:induction false} FormatNoteRoundTrip(value: nat, sharp: bool, letter: char, octave: nat, wave: Waveform, volume: nat, bpm: nat)
    requires 1 <= value <= 255 && IsNoteLetter(letter) && 1 <= octave <= 8 && volume <= 9
    ensures ParseNoteText(FormatNote(value, sharp, letter, octave, wave, volume), bpm, false)
      == Success(Note(Some(NoteToMidiNumber(letter, octave, sharp)), DurationToSeconds(value, bpm), wave, volume as real / 10.0, [], false, false))
  {
    var digits := NatToString(value);
    var tail := (if sharp then "#" else "") + [letter, DigitChar(octave), WaveformLetter(wave), '.', DigitChar(volume)];
    var s := FormatNote(value, sharp, letter, octave, wave, volume);
    assert s == digits + tail;
    TrimUnchanged(s);
    LeadingDigitsConcat(digits, tail);
    assert s[..|digits|] == digits;
    NatToStringValue(value);
    assert s[|digits|..] == tail;
    assert |digits| > 0 && DigitsValue(s[..|digits|]) == value;
    assert ParseNoteText(s, bpm, false) == NoteAfterValue(s, value, bpm, tail, false);
    NoteAfterValueRoundTrip(s, value, sharp, letter, octave, wave, volume, bpm);
  }

  /** A note without a leading duration is refused with the trimmed note quoted. */
  lemma QuotedMissingDuration()
    ensures ParseNoteText(" c4 ", 120, false) == Failure(MissingDuration("c4"))
    ensures Message(MissingDuration("c4")) == "Missing duration in note: 'c4'"
  {
    TrimUnchanged("c4");
    assert Trim(" c4 ") == "c4";
  }

  /** A letter that is not a note is refused with the lower-cased letter quoted. */
  lemma QuotedInvalidLetter()
    ensures ParseNoteText("4H", 120, false) == Failure(InvalidLetter('h'))
    ensures Message(InvalidLetter('h')) == "Invalid note letter: 'h'"
  {
    TrimUnchanged("4H");
    assert LeadingDigits("4H") == 1;
  }

  /** An octave outside 1..8 is refused with the octave written out. */
  lemma QuotedOctave()
    ensures ParseNoteText("4c9", 120, false) == Failure(OctaveOutOfRange(9))
    ensures Message(OctaveOutOfRange(9)) == "Octave out of range (1-8): 9"
  {
    TrimUnchanged("4c9");
    assert LeadingDigits("4c9") == 1;
    assert "" + ['9'] == "9";
    assert ModifierScan("9", 0, "") == Success((1, "9", None, None));
    assert NatToString(9) == "9";
  }

  // ---------------------------------------------------------------------
  // parse_notes

  /** The variables of parse_notes' loop that decide where tokens end: the token being built, the parenthesis and skip states. */
  datatype ScanState = ScanState(token: string, inParen: bool, skip: bool)

  const StartScan := ScanState("", false, false)

  /**
   * One character of parse_notes: `(` and `)` toggle the parenthesis state
   * and stay in the token; whitespace inside parentheses stays in the token;
   * elsewhere whitespace ends a non-empty token, which is a flag (`--`...)
   * that makes the next token skipped, a skipped token, or a note token
   * handed on to be parsed (the second component).
   */
  function ScanStep(st: ScanState, ch: char): (r: (ScanState, seq<string>))
    ensures |r.1| <= 1
  {
    if ch == '(' then (st.(token := st.token + [ch], inParen := true), [])
    else if ch == ')' then (st.(token := st.token + [ch], inParen := false), [])
    else if !IsSpace(ch) || st.inParen then (st.(token := st.token + [ch]), [])
    else if |st.token| == 0 then (st, [])
    else if StartsWith(st.token, "--") then (st.(token := "", skip := true), [])
    else if st.skip then (st.(token := "", skip := false), [])
    else (st.(token := ""), [st.token])
  }

  /** After the last character, the pending token is a note token unless it is empty, a flag or skipped. */
  function Pending(st: ScanState): (r: seq<string>)
    ensures |r| <= 1
  {
    if |st.token| > 0 && !StartsWith(st.token, "--") && !st.skip then [st.token] else []
  }

  /** The note tokens that parse_notes parses, in order, for the text still to read. */
  function ScanTokens(rest: string, st: ScanState): seq<string>
    decreases |rest|
  {
    if |rest| == 0 then Pending(st)
    else
      var (next, out) := ScanStep(st, rest[0]);
      out + ScanTokens(rest[1..], next)
  }

  /** The note tokens of a whole composition. */
  function NoteTokens(input: string): seq<string>
  {
    ScanTokens(input, StartScan)
  }

  /** Each token's parse, in token order. */
  function ParseResults(tokens: seq<string>, bpm: nat, legacy: bool): (r: seq<Result<Note, NoteError>>)
    ensures |r| == |tokens|
    decreases |tokens|
  {
    if |tokens| == 0 then [] else [ParseNoteText(tokens[0], bpm, legacy)] + ParseResults(tokens[1..], bpm, legacy)
  }

  /** Each result is the parse of the token at its own position. */
  lemma {:induction false} ParseResultsAt(tokens: seq<string>, bpm: nat, legacy: bool, j: nat)
    requires j < |tokens|
    ensures ParseResults(tokens, bpm, legacy)[j] == ParseNoteText(tokens[j], bpm, legacy)
    decreases |tokens|
  {
    if j > 0 {
      ParseResultsAt(tokens[1..], bpm, legacy, j - 1);
    }
  }

  /** The notes so far followed by those of `results`; the first failure fails the whole. */
  function Collect(notes: seq<Note>, results: seq<Result<Note, NoteError>>): (r: Result<seq<Note>, NoteError>)
    ensures r.Success? ==> |r.value| == |notes| + |results| && r.value[..|notes|] == notes
    decreases |results|
  {
    if |results| == 0 then Success(notes)
    else
      match results[0]
      case Failure(e) => Failure(e)
      case Success(n) =>
        var r := Collect(notes + [n], results[1..]);
        assert r.Success? ==> r.value[..|notes|] == r.value[..|notes| + 1][..|notes|];
        r
  }

  /** parse_notes: every note of a composition, or the error of its first bad note. */
  function NotesOf(input: string, bpm: nat, legacy: bool): Result<seq<Note>, NoteError>
  {
    Collect([], ParseResults(NoteTokens(input), bpm, legacy))
  }

  /** When all results succeed, each note is the value of the result at its own position. */
  lemma {:induction false} CollectAt(notes: seq<Note>, results: seq<Result<Note, NoteError>>, j: nat)
    requires j < |results| && Collect(notes, results).Success?
    ensures results[j] == Success(Collect(notes, results).value[|notes| + j])
    decreases |results|
  {
    var n := results[0].value;
    var r := Collect(notes + [n], results[1..]);
    if j == 0 {
      assert r.value[|notes|] == r.value[..|notes| + 1][|notes|] == n;
    } else {
      CollectAt(notes + [n], results[1..], j - 1);
    }
  }

  /** The call fails with the error of the first failing result. */
  lemma {:induction false} CollectFails(notes: seq<Note>, results: seq<Result<Note, NoteError>>, j: nat)
    requires j < |results| && results[j].Failure?
    requires forall i :: 0 <= i < j ==> results[i].Success?
    ensures Collect(notes, results) == Failure(results[j].error)
    decreases |results|
  {
    if j > 0 {
      CollectFails(notes + [results[0].value], results[1..], j - 1);
    }
  }

  /** One character of parse_notes' loop: the new token state and the note token it ends, if any. */
  method ScanChar(st: ScanState, ch: char) returns (next: ScanState, out: seq<string>)
    ensures (next, out) == ScanStep(st, ch)
  {
    var token, inParen, skip := st.token, st.inParen, st.skip;
    out := [];
    if ch == '(' {
      inParen := true;
      token := token + [ch];
    } else if ch == ')' {
      inParen := false;
      token := token + [ch];
    } else if IsSpace(ch) {
      if inParen {
        token := token + [ch];
      } else if |token| > 0 {
        if StartsWith(token, "--") {
          skip := true;
        } else if skip {
          skip := false;
        } else {
          out := [token];
        }
        token := "";
      }
    } else {
      token := token + [ch];
    }
    next := ScanState(token, inParen, skip);
  }

  /** One character of the scan: the token it ends, if any, is parsed and collected before the rest. */
  lemma CollectStep(notes: seq<Note>, input: string, i: nat, st: ScanState, bpm: nat, legacy: bool)
    requires i < |input|
    ensures var step := ScanStep(st, input[i]);
      var rest := ParseResults(ScanTokens(input[i + 1..], step.0), bpm, legacy);
      var whole := Collect(notes, ParseResults(ScanTokens(input[i..], st), bpm, legacy));
      && (|step.1| == 0 ==> whole == Collect(notes, rest))
      && (|step.1| > 0 && ParseNoteText(step.1[0], bpm, legacy).Failure? ==>
            whole == Failure(ParseNoteText(step.1[0], bpm, legacy).error))
      && (|step.1| > 0 && ParseNoteText(step.1[0], bpm, legacy).Success? ==>
            whole == Collect(notes + [ParseNoteText(step.1[0], bpm, legacy).value], rest))
  {
    assert input[i..][0] == input[i] && input[i..][1..] == input[i + 1..];
    var (next, out) := ScanStep(st, input[i]);
    var later := ScanTokens(input[i + 1..], next);
    assert ScanTokens(input[i..], st) == out + later;
    if |out| > 0 {
      assert (out + later)[0] == out[0] && (out + later)[1..] == later;
      var results := ParseResults(out + later, bpm, legacy);
      assert results[0] == ParseNoteText(out[0], bpm, legacy) && results[1..] == ParseResults(later, bpm, legacy);
    } else {
      assert out + later == later;
    }
  }

  method ParseNotes(input: string, bpm: nat, legacy: bool) returns (r: Result<seq<Note>, NoteError>)
    ensures r == NotesOf(input, bpm, legacy)
  {
    var st := StartScan;
    var notes: seq<Note> := [];
    var i := 0;
    while i < |input|
      invariant i <= |input|
      invariant Collect(notes, ParseResults(ScanTokens(input[i..], st), bpm, legacy)) == NotesOf(input, bpm, legacy)
    {
      CollectStep(notes, input, i, st, bpm, legacy);
      var next, out := ScanChar(st, input[i]);
      if |out| > 0 {
        var n := ParseNote(out[0], bpm, legacy);
        if n.Failure? {
          return Failure(n.error);
        }
        notes := notes + [n.value];
      }
      st := next;
      i := i + 1;
    }
    assert input[i..] == "";
    if |st.token| > 0 && !StartsWith(st.token, "--") && !st.skip {
      var n := ParseNote(st.token, bpm, legacy);
      if n.Failure? {
        return Failure(n.error);
      }
      assert [st.token][1..] == [];
      assert ParseResults([st.token], bpm, legacy) == [n];
      return Success(notes + [n.value]);
    }
    r := Success(notes);
  }

  /** Text with no whitespace and no parenthesis: it only extends the current token. */
  predicate IsPlainWord(w: string)
  {
    forall j :: 0 <= j < |w| ==> !IsSpace(w[j]) && w[j] != '(' && w[j] != ')'
  }

  /** A run of plain characters is appended to the current token. */
  lemma {:induction false} ScanPlainRun(w: string, rest: string, st: ScanState)
    requires IsPlainWord(w)
    ensures ScanTokens(w + rest, st) == ScanTokens(rest, st.(token := st.token + w))
    decreases |w|
  {
    if |w| == 0 {
      assert w + rest == rest && st.token + w == st.token;
    } else {
      assert (w + rest)[0] == w[0] && (w + rest)[1..] == w[1..] + rest;
      ScanPlainRun(w[1..], rest, st.(token := st.token + [w[0]]));
      assert st.token + [w[0]] + w[1..] == st.token + w;
    }
  }

  /** Inside parentheses, whitespace is appended to the token like any other character. */
  lemma {:induction false} ScanInsideParens(body: string, rest: string, st: ScanState)
    requires st.inParen
    requires forall j :: 0 <= j < |body| ==> body[j] != '(' && body[j] != ')'
    ensures ScanTokens(body + rest, st) == ScanTokens(rest, st.(token := st.token + body))
    decreases |body|
  {
    if |body| == 0 {
      assert body + rest == rest && st.token + body == st.token;
    } else {
      assert (body + rest)[0] == body[0] && (body + rest)[1..] == body[1..] + rest;
      ScanInsideParens(body[1..], rest, st.(token := st.token + [body[0]]));
      assert st.token + [body[0]] + body[1..] == st.token + body;
    }
  }

  /**
   * A parenthesised group, whitespace included, becomes part of one token and
   * the scan leaves it outside parentheses.
   */
  lemma ParenthesisedGroupIsOneToken(body: string, rest: string, st: ScanState)
    requires forall j :: 0 <= j < |body| ==> body[j] != '(' && body[j] != ')'
    ensures ScanTokens("(" + body + ")" + rest, st)
      == ScanTokens(rest, st.(token := st.token + "(" + body + ")", inParen := false))
  {
    var open := st.(token := st.token + "(", inParen := true);
    assert ("(" + body + ")" + rest)[1..] == body + (")" + rest);
    ScanInsideParens(body, ")" + rest, open);
    assert (")" + rest)[1..] == rest;
    assert st.token + "(" + body + ")" == open.token + body + ")";
  }

  /** A plain word read from an empty token and ended by a space: the step that settles the word. */
  lemma WordThenSpace(w: string, rest: string, skip: bool)
    requires IsPlainWord(w)
    ensures var (next, out) := ScanStep(ScanState(w, false, skip), ' ');
      ScanTokens(w + " " + rest, ScanState("", false, skip)) == out + ScanTokens(rest, next)
  {
    ScanPlainRun(w, " " + rest, ScanState("", false, skip));
    assert w + " " + rest == w + (" " + rest);
    assert ScanState("", false, skip).(token := "" + w) == ScanState(w, false, skip);
    assert (" " + rest)[0] == ' ' && (" " + rest)[1..] == rest;
  }

  /** A plain token that is not a flag, followed by a space, is the next note token. */
  lemma NoteTokenIsParsed(w: string, rest: string)
    requires |w| > 0 && IsPlainWord(w) && !StartsWith(w, "--")
    ensures ScanTokens(w + " " + rest, StartScan) == [w] + ScanTokens(rest, StartScan)
  {
    WordThenSpace(w, rest, false);
  }

  /** A flag token (`--`...) and the space after it set the skip state for the next token. */
  lemma FlagToken(flag: string, rest: string, skip: bool)
    requires IsPlainWord(flag) && StartsWith(flag, "--")
    ensures ScanTokens(flag + " " + rest, ScanState("", false, skip)) == ScanTokens(rest, ScanState("", false, true))
  {
    WordThenSpace(flag, rest, skip);
  }

  /** A flag token and the plain token after it produce no note token. */
  lemma FlagSkipsNextToken(flag: string, arg: string, rest: string, skip: bool)
    requires IsPlainWord(flag) && StartsWith(flag, "--")
    requires |arg| > 0 && IsPlainWord(arg) && !StartsWith(arg, "--")
    ensures ScanTokens(flag + " " + arg + " " + rest, ScanState("", false, skip)) == ScanTokens(rest, StartScan)
  {
    assert flag + " " + arg + " " + rest == flag + " " + (arg + " " + rest);
    FlagToken(flag, arg + " " + rest, skip);
    WordThenSpace(arg, rest, true);
  }

  /** validate_midi_composition: the private parser at 120 bpm. */
  method ValidateMidiComposition(input: string) returns (r: Result<seq<Note>, NoteError>)
    ensures r == NotesOf(input, 120, true)
  {
    r := ParseNotes(input, 120, true);
  }

  // ---------------------------------------------------------------------
  // sample counts of generate_note_samples and play_notes

  const SampleRate := 48000
  const UsizeMax := 0xffff_ffff_ffff_ffff

  /** `(48000 * seconds) as usize`: truncation toward zero, saturating at 0 and at the largest usize. */
  function SampleCount(d: Seconds): (n: nat)
    ensures n <= UsizeMax
  {
    match d
    case Infinite => UsizeMax
    case Finite(s) =>
      if s <= 0.0 then 0
      else if (SampleRate as real * s).Floor > UsizeMax then UsizeMax
      else (SampleRate as real * s).Floor
  }

  /** The share of one arpeggio member: the duration divided by the member count. */
  function Share(d: Seconds, count: nat): Seconds
    requires count > 0
  {
    match d
    case Infinite => Infinite
    case Finite(s) => Finite(s / count as real)
  }

  /**
   * Every note has a finite duration. A duration digit 0 gives an infinite
   * one, whose sample count saturates at the largest integer of the cast:
   * no buffer of that length can be allocated, in Rust, Kotlin or JavaScript.
   */
  predicate AllFinite(notes: seq<Note>)
  {
    forall k :: 0 <= k < |notes| ==> notes[k].duration.Finite?
  }

  /** A sequence is finite exactly when its first part and its last note are. */
  lemma AllFiniteSnoc(notes: seq<Note>)
    requires |notes| > 0
    ensures AllFinite(notes) <==> AllFinite(notes[..|notes| - 1]) && notes[|notes| - 1].duration.Finite?
  {
    if AllFinite(notes[..|notes| - 1]) && notes[|notes| - 1].duration.Finite? {
      forall k | 0 <= k < |notes|
        ensures notes[k].duration.Finite?
      {
        if k < |notes| - 1 {
          assert notes[k] == notes[..|notes| - 1][k];
        }
      }
    }
  }

  /**
   * Number of samples generate_note_samples produces: one block per
   * arpeggio member, each lasting an equal share of the note, or one block
   * for a pitched note or a rest.
   */
  function NoteSampleCount(note: Note): nat
  {
    if |note.arpeggio| > 0 then |note.arpeggio| * SampleCount(Share(note.duration, |note.arpeggio|))
    else SampleCount(note.duration)
  }

  /** play_notes concatenates the samples of its notes. */
  function NotesSampleCount(notes: seq<Note>): nat
  {
    if |notes| == 0 then 0 else NotesSampleCount(notes[..|notes| - 1]) + NoteSampleCount(notes[|notes| - 1])
  }

  /** Splitting a note into arpeggio members never makes it longer than the note itself. */
  lemma ArpeggioNoLonger(note: Note)
    requires |note.arpeggio| > 0 && note.duration.Finite?
    requires SampleRate as real * note.duration.secs <= UsizeMax as real
    ensures NoteSampleCount(note) <= SampleCount(note.duration)
  {
    var n := |note.arpeggio|;
    var s := note.duration.secs;
    if s > 0.0 {
      var x := SampleRate as real * s;
      var q := (SampleRate as real * (s / n as real)).Floor;
      assert SampleRate as real * (s / n as real) == x / n as real;
      assert q as real <= x / n as real;
      assert (n * q) as real <= x;
      assert n * q <= x.Floor;
    }
  }

  /** A rest of a quarter note at 120 bpm is 24000 samples of silence. */
  lemma RestSampleCount()
    ensures NoteSampleCount(RestNote(DurationToSeconds(4, 120))) == 24000
  {
    DurationExamples();
    assert (24000.0).Floor == 24000;
  }

  /**
   * The panic of generate_note_samples for an infinite duration: the cast
   * saturates at usize::MAX, and a buffer of that many f32 samples
   * overflows the capacity the standard library can request.
   */
  const CapacityOverflow := "capacity overflow"

  /**
   * The loop of play_notes and of each channel in play_channels: the
   * samples of each note appended in turn, here counted; the first note of
   * infinite duration panics.
   */
  method GenerateSamples(notes: seq<Note>) returns (r: Result<nat, string>)
    ensures r.Success? <==> AllFinite(notes)
    ensures r.Failure? ==> r.error == CapacityOverflow
    ensures r.Success? ==> r.value == NotesSampleCount(notes)
  {
    var total := 0;
    var k := 0;
    while k < |notes|
      invariant k <= |notes|
      invariant AllFinite(notes[..k]) && total == NotesSampleCount(notes[..k])
    {
      AllFiniteSnoc(notes[..k + 1]);
      assert notes[..k + 1][..k] == notes[..k];
      if notes[k].duration.Infinite? {
        assert !AllFinite(notes) by {
          assert notes[k].duration.Infinite?;
        }
        return Failure(CapacityOverflow);
      }
      total := total + NoteSampleCount(notes[k]);
      k := k + 1;
    }
    assert notes[..k] == notes;
    r := Success(total);
  }

  // ---------------------------------------------------------------------
  // play_channels: mixing

  /** The length of the longest buffer, or 0 for none. */
  function MaxLength(buffers: seq<seq<real>>): (m: nat)
    ensures forall k :: 0 <= k < |buffers| ==> |buffers[k]| <= m
    ensures |buffers| > 0 ==> exists k :: 0 <= k < |buffers| && |buffers[k]| == m
    ensures |buffers| == 0 ==> m == 0
  {
    if |buffers| == 0 then 0
    else
      var rest := MaxLength(buffers[..|buffers| - 1]);
      assert forall k :: 0 <= k < |buffers| - 1 ==> buffers[..|buffers| - 1][k] == buffers[k];
      if |buffers[|buffers| - 1]| > rest then |buffers[|buffers| - 1]| else rest
  }

  /** Sample `i` of the mix of the first `n` buffers: the sum over those long enough to have one. */
  function MixedSample(buffers: seq<seq<real>>, n: nat, i: nat): real
    requires n <= |buffers|
  {
    if n == 0 then 0.0
    else MixedSample(buffers, n - 1, i) + (if i < |buffers[n - 1]| then buffers[n - 1][i] else 0.0)
  }

  /**
   * The mixing of play_channels: a buffer as long as the longest channel,
   * whose sample `i` is the sum of the channels' samples at `i`.
   */
  method MixChannels(buffers: seq<seq<real>>) returns (r: Result<seq<real>, string>)
    ensures r.Failure? <==> |buffers| == 0
    ensures r.Failure? ==> r.error == NoChannels
    ensures r.Success? ==> |r.value| == MaxLength(buffers)
    ensures r.Success? ==> forall i :: 0 <= i < |r.value| ==> r.value[i] == MixedSample(buffers, |buffers|, i)
  {
    if |buffers| == 0 {
      return Failure(NoChannels);
    }
    var maxLength := 0;
    var k := 0;
    while k < |buffers|
      invariant k <= |buffers|
      invariant maxLength == MaxLength(buffers[..k])
    {
      assert buffers[..k + 1][..k] == buffers[..k];
      if |buffers[k]| > maxLength {
        maxLength := |buffers[k]|;
      }
      k := k + 1;
    }
    assert buffers[..k] == buffers;
    var mixed := new real[maxLength](_ => 0.0);
    k := 0;
    while k < |buffers|
      invariant k <= |buffers|
      invariant forall t :: 0 <= t < maxLength ==> mixed[t] == MixedSample(buffers, k, t)
    {
      var buffer := buffers[k];
      var i := 0;
      while i < |buffer|
        invariant i <= |buffer| <= maxLength
        invariant forall t :: 0 <= t < i ==> mixed[t] == MixedSample(buffers, k + 1, t)
        invariant forall t :: i <= t < maxLength ==> mixed[t] == MixedSample(buffers, k, t)
      {
        mixed[i] := mixed[i] + buffer[i];
        i := i + 1;
      }
      k := k + 1;
    }
    r := Success(mixed[..]);
  }

  /** Mixing a single channel gives that channel back. */
  lemma MixOneChannel(buffer: seq<real>, i: nat)
    requires i < |buffer|
    ensures MaxLength([buffer]) == |buffer|
    ensures MixedSample([buffer], 1, i) == buffer[i]
  {
    assert MixedSample([buffer], 0, i) == 0.0;
  }

  /** A channel too short to reach index `i` adds nothing there; one that reaches it adds its sample. */
  lemma {:induction false} MixedSampleAppend(buffers: seq<seq<real>>, extra: seq<real>, i: nat)
    ensures MixedSample(buffers + [extra], |buffers| + 1, i)
      == MixedSample(buffers, |buffers|, i) + (if i < |extra| then extra[i] else 0.0)
  {
    MixedSamplePrefix(buffers, [extra], |buffers|, i);
  }

  /** The mix of the first `n` buffers ignores what comes after them. */
  lemma {:induction false} MixedSamplePrefix(buffers: seq<seq<real>>, more: seq<seq<real>>, n: nat, i: nat)
    requires n <= |buffers|
    ensures MixedSample(buffers + more, n, i) == MixedSample(buffers, n, i)
  {
    if n > 0 {
      MixedSamplePrefix(buffers, more, n - 1, i);
      assert (buffers + more)[n - 1] == buffers[n - 1];
    }
  }

  // ---------------------------------------------------------------------
  // parse_and_play: channel overrides

  /**
   * The channel settings applied to a parsed note: its volume is replaced
   * only when the channel has one and the note kept the default 1.0; adsr
   * and vibrato always come from the channel.
   */
  function WithChannel(note: Note, channel: MidiChannels.ChannelConfig): Note
  {
    note.(
      volume := if channel.volume.Some? && note.volume == 1.0 then channel.volume.value else note.volume,
      adsr := channel.adsr,
      vibrato := channel.vibrato)
  }

  /**
   * Applying a channel twice is applying it once; pitch, duration, waveform
   * and arpeggio are kept; a note with its own volume keeps it.
   */
  lemma WithChannelProperties(note: Note, channel: MidiChannels.ChannelConfig)
    ensures WithChannel(WithChannel(note, channel), channel) == WithChannel(note, channel)
    ensures var n := WithChannel(note, channel);
      n.pitch == note.pitch && n.duration == note.duration && n.waveform == note.waveform && n.arpeggio == note.arpeggio
    ensures note.volume != 1.0 || channel.volume.None? ==> WithChannel(note, channel).volume == note.volume
    ensures WithChannel(note, channel).adsr == channel.adsr && WithChannel(note, channel).vibrato == channel.vibrato
  {
  }

  /** The loop of parse_and_play that overrides each parsed note in place. */
  method ApplyChannel(notes: seq<Note>, channel: MidiChannels.ChannelConfig) returns (r: seq<Note>)
    ensures |r| == |notes|
    ensures forall k :: 0 <= k < |r| ==> r[k] == WithChannel(notes[k], channel)
  {
    r := notes;
    var k := 0;
    while k < |r|
      invariant k <= |r| == |notes|
      invariant forall t :: 0 <= t < k ==> r[t] == WithChannel(notes[t], channel)
      invariant forall t :: k <= t < |r| ==> r[t] == notes[t]
    {
      var note := r[k];
      if channel.volume.Some? && note.volume == 1.0 {
        note := note.(volume := channel.volume.value);
      }
      note := note.(adsr := channel.adsr, vibrato := channel.vibrato);
      r := r[k := note];
      k := k + 1;
    }
  }

  function MapWithChannel(notes: seq<Note>, channel: MidiChannels.ChannelConfig): (r: seq<Note>)
    ensures |r| == |notes| && forall k :: 0 <= k < |r| ==> r[k] == WithChannel(notes[k], channel)
  {
    if |notes| == 0 then [] else MapWithChannel(notes[..|notes| - 1], channel) + [WithChannel(notes[|notes| - 1], channel)]
  }

  /** What parse_and_play hands to the audio output: one note sequence, or channels to mix. */
  datatype Playback = Sequence(notes: seq<Note>) | Channels(channels: seq<seq<Note>>)

  /** Every note plays with the channel's adsr and vibrato settings. */
  predicate Carries(notes: seq<Note>, channel: MidiChannels.ChannelConfig)
  {
    forall t :: 0 <= t < |notes| ==> notes[t].adsr == channel.adsr && notes[t].vibrato == channel.vibrato
  }

  /** Each channel's composition parsed at tempo `bpm`, in channel order. */
  function ChannelResults(channels: seq<MidiChannels.ChannelConfig>, bpm: nat): (r: seq<Result<seq<Note>, NoteError>>)
    ensures |r| == |channels|
    decreases |channels|
  {
    if |channels| == 0 then [] else [NotesOf(channels[0].composition, bpm, false)] + ChannelResults(channels[1..], bpm)
  }

  /** Each parse result belongs to the channel at its own position. */
  lemma {:induction false} ChannelResultsAt(channels: seq<MidiChannels.ChannelConfig>, bpm: nat, j: nat)
    requires j < |channels|
    ensures ChannelResults(channels, bpm)[j] == NotesOf(channels[j].composition, bpm, false)
    decreases |channels|
  {
    if j > 0 {
      ChannelResultsAt(channels[1..], bpm, j - 1);
    }
  }

  /** The notes of channels `k..` with their overrides applied, the first parse error ending the whole call. */
  function ChannelNotes(channels: seq<MidiChannels.ChannelConfig>, parsed: seq<Result<seq<Note>, NoteError>>, k: nat, acc: seq<seq<Note>>)
    : (r: Result<seq<seq<Note>>, NoteError>)
    requires |parsed| == |channels| && k <= |channels|
    ensures r.Success? ==> |r.value| == |acc| + |channels| - k && r.value[..|acc|] == acc
    decreases |channels| - k
  {
    if k == |channels| then Success(acc)
    else
      match parsed[k]
      case Failure(e) => Failure(e)
      case Success(notes) =>
        var r := ChannelNotes(channels, parsed, k + 1, acc + [MapWithChannel(notes, channels[k])]);
        assert r.Success? ==> r.value[..|acc|] == r.value[..|acc| + 1][..|acc|];
        r
  }

  /** Each channel's notes carry that channel's settings. */
  lemma {:induction false} ChannelNotesCarry(channels: seq<MidiChannels.ChannelConfig>, parsed: seq<Result<seq<Note>, NoteError>>, k: nat, acc: seq<seq<Note>>, j: nat)
    requires |parsed| == |channels| && k <= j < |channels| && ChannelNotes(channels, parsed, k, acc).Success?
    ensures Carries(ChannelNotes(channels, parsed, k, acc).value[|acc| + j - k], channels[j])
    decreases |channels| - k
  {
    var m := MapWithChannel(parsed[k].value, channels[k]);
    var r := ChannelNotes(channels, parsed, k + 1, acc + [m]);
    if j == k {
      assert r.value[|acc|] == r.value[..|acc| + 1][|acc|] == m;
    } else {
      ChannelNotesCarry(channels, parsed, k + 1, acc + [m], j);
    }
  }

  /**
   * How parse_and_play plays parsed channels at tempo `bpm`: a single
   * channel without any `--channel` flag in the input is played as one note
   * sequence; otherwise every channel is parsed and the channels are mixed.
   */
  function Arrange(input: string, channels: seq<MidiChannels.ChannelConfig>, bpm: nat): Result<Playback, string>
  {
    if |channels| == 1 && !Contains(input, "--channel") then
      match NotesOf(channels[0].composition, bpm, false)
      case Failure(e) => Failure(Message(e))
      case Success(notes) =>
        var played := MapWithChannel(notes, channels[0]);
        if AllFinite(played) then Success(Sequence(played)) else Failure(CapacityOverflow)
    else
      match ChannelNotes(channels, ChannelResults(channels, bpm), 0, [])
      case Failure(e) => Failure(Message(e))
      case Success(all) =>
        if forall j :: 0 <= j < |all| ==> AllFinite(all[j]) then Success(Channels(all)) else Failure(CapacityOverflow)
  }

  /** Overriding the channel settings keeps every duration, so it keeps finiteness too. */
  lemma MapWithChannelFinite(notes: seq<Note>, channel: MidiChannels.ChannelConfig)
    ensures AllFinite(MapWithChannel(notes, channel)) <==> AllFinite(notes)
  {
    var m := MapWithChannel(notes, channel);
    forall k | 0 <= k < |notes|
      ensures m[k].duration == notes[k].duration
    {
      WithChannelProperties(notes[k], channel);
    }
  }

  /** Channels `k..` all parse exactly when ChannelNotes succeeds, and its list `j` is channel `j` with its overrides. */
  lemma {:induction false} ChannelNotesAt(channels: seq<MidiChannels.ChannelConfig>, parsed: seq<Result<seq<Note>, NoteError>>, k: nat, acc: seq<seq<Note>>)
    requires |parsed| == |channels| && k <= |channels|
    ensures ChannelNotes(channels, parsed, k, acc).Success? <==> forall j :: k <= j < |channels| ==> parsed[j].Success?
    ensures ChannelNotes(channels, parsed, k, acc).Success? ==>
      forall j :: k <= j < |channels| ==> ChannelNotes(channels, parsed, k, acc).value[|acc| + j - k] == MapWithChannel(parsed[j].value, channels[j])
    decreases |channels| - k
  {
    if k < |channels| && parsed[k].Success? {
      var m := MapWithChannel(parsed[k].value, channels[k]);
      var r := ChannelNotes(channels, parsed, k + 1, acc + [m]);
      ChannelNotesAt(channels, parsed, k + 1, acc + [m]);
      if r.Success? {
        assert r.value[|acc|] == r.value[..|acc| + 1][|acc|] == m;
      }
    }
  }

  /**
   * A single flagless channel that parses plays exactly when none of its
   * notes has an infinite duration; otherwise generate_note_samples panics.
   */
  lemma SingleChannelPanics(input: string, channels: seq<MidiChannels.ChannelConfig>, bpm: nat)
    requires |channels| == 1 && !Contains(input, "--channel")
    requires NotesOf(channels[0].composition, bpm, false).Success?
    ensures Arrange(input, channels, bpm).Success? <==> AllFinite(NotesOf(channels[0].composition, bpm, false).value)
    ensures Arrange(input, channels, bpm).Failure? ==> Arrange(input, channels, bpm).error == CapacityOverflow
  {
    MapWithChannelFinite(NotesOf(channels[0].composition, bpm, false).value, channels[0]);
  }

  /**
   * Mixed channels that all parse play exactly when no note of any
   * channel has an infinite duration; otherwise play_channels panics.
   */
  lemma MixedChannelsPanic(input: string, channels: seq<MidiChannels.ChannelConfig>, bpm: nat)
    requires !(|channels| == 1 && !Contains(input, "--channel"))
    requires forall j :: 0 <= j < |channels| ==> NotesOf(channels[j].composition, bpm, false).Success?
    ensures Arrange(input, channels, bpm).Success? <==>
      forall j :: 0 <= j < |channels| ==> AllFinite(NotesOf(channels[j].composition, bpm, false).value)
    ensures Arrange(input, channels, bpm).Failure? ==> Arrange(input, channels, bpm).error == CapacityOverflow
  {
    var parsed := ChannelResults(channels, bpm);
    forall j | 0 <= j < |channels|
      ensures parsed[j] == NotesOf(channels[j].composition, bpm, false)
    {
      ChannelResultsAt(channels, bpm, j);
    }
    ChannelsPlayed(channels, parsed);
  }

  /** When every channel parses, the played lists are all finite exactly when the parsed ones are. */
  lemma ChannelsPlayed(channels: seq<MidiChannels.ChannelConfig>, parsed: seq<Result<seq<Note>, NoteError>>)
    requires |parsed| == |channels| && forall j :: 0 <= j < |channels| ==> parsed[j].Success?
    ensures ChannelNotes(channels, parsed, 0, []).Success?
    ensures var all := ChannelNotes(channels, parsed, 0, []).value;
      (forall j :: 0 <= j < |all| ==> AllFinite(all[j])) <==> forall j :: 0 <= j < |channels| ==> AllFinite(parsed[j].value)
  {
    ChannelNotesAt(channels, parsed, 0, []);
    var all := ChannelNotes(channels, parsed, 0, []).value;
    forall j | 0 <= j < |channels|
      ensures AllFinite(all[j]) <==> AllFinite(parsed[j].value)
    {
      MapWithChannelFinite(parsed[j].value, channels[j]);
    }
  }

  /** The engine's tempo after parse_and_play: the input's `--bpm` once its flags parse, else unchanged. */
  function TempoAfter(input: string, bpm: nat): nat
  {
    match MidiChannels.ChannelsOf(input, MidiChannels.Rust)
    case Success((_, Some(b))) => b
    case _ => bpm
  }

  /** parse_and_play: the channels of the input played at the tempo the input sets, or the first error. */
  function PlaybackOf(input: string, bpm: nat): Result<Playback, string>
  {
    match MidiChannels.ChannelsOf(input, MidiChannels.Rust)
    case Failure(e) => Failure(e)
    case Success(parsed) => Arrange(input, parsed.0, TempoAfter(input, bpm))
  }

  /**
   * Every note played carries the adsr and vibrato of its channel: a single
   * flagless channel becomes one sequence, otherwise there is one note list
   * per channel.
   */
  lemma ArrangeCarriesChannels(input: string, channels: seq<MidiChannels.ChannelConfig>, bpm: nat)
    requires Arrange(input, channels, bpm).Success?
    ensures var play := Arrange(input, channels, bpm).value;
      play.Channels? ==> |play.channels| == |channels| && forall j :: 0 <= j < |channels| ==> Carries(play.channels[j], channels[j])
    ensures var play := Arrange(input, channels, bpm).value;
      play.Sequence? ==> |channels| == 1 && Carries(play.notes, channels[0])
  {
    if !(|channels| == 1 && !Contains(input, "--channel")) {
      var parsed := ChannelResults(channels, bpm);
      forall j | 0 <= j < |channels|
        ensures Carries(ChannelNotes(channels, parsed, 0, []).value[j], channels[j])
      {
        ChannelNotesCarry(channels, parsed, 0, [], j);
      }
    }
  }

  /** A successful parse_and_play parsed the flags, and plays at the tempo the input sets, if any. */
  lemma PlaybackUsesTempo(input: string, bpm: nat)
    requires PlaybackOf(input, bpm).Success?
    ensures MidiChannels.ChannelsOf(input, MidiChannels.Rust).Success?
    ensures PlaybackOf(input, bpm) == Arrange(input, MidiChannels.ChannelsOf(input, MidiChannels.Rust).value.0, TempoAfter(input, bpm))
    ensures bpm > 0 ==> TempoAfter(input, bpm) > 0
  {
    MidiChannels.ChannelsWellFormed(input, MidiChannels.Rust);
  }

  /** The terminal player's engine; its tempo is the only state parsing depends on. */
  class Engine {
    var bpm: nat

    constructor(bpm: nat)
      ensures this.bpm == bpm
    {
      this.bpm := bpm;
    }

    method ParseAndPlay(input: string) returns (r: Result<Playback, string>)
      modifies this
      ensures r == PlaybackOf(input, old(bpm))
      ensures bpm == TempoAfter(input, old(bpm))
    {
      var parsed := MidiChannels.ParseChannels(input, MidiChannels.Rust);
      if parsed.Failure? {
        return Failure(parsed.error);
      }
      var (channels, newBpm) := parsed.value;
      if newBpm.Some? {
        bpm := newBpm.value;
      }
      r := Play(input, channels, bpm);
    }
  }

  /** The rest of parse_and_play once the flags are parsed and the tempo is set. */
  method Play(input: string, channels: seq<MidiChannels.ChannelConfig>, bpm: nat) returns (r: Result<Playback, string>)
    ensures r == Arrange(input, channels, bpm)
  {
    if |channels| == 1 && !Contains(input, "--channel") {
      var notes := ParseNotes(channels[0].composition, bpm, false);
      if notes.Failure? {
        return Failure(Message(notes.error));
      }
      var played := ApplyChannel(notes.value, channels[0]);
      assert played == MapWithChannel(notes.value, channels[0]);
      var generated := GenerateSamples(played);
      if generated.Failure? {
        return Failure(generated.error);
      }
      return Success(Sequence(played));
    }
    ghost var parsed := ChannelResults(channels, bpm);
    var all: seq<seq<Note>> := [];
    var k := 0;
    while k < |channels|
      invariant k <= |channels|
      invariant ChannelNotes(channels, parsed, k, all) == ChannelNotes(channels, parsed, 0, [])
    {
      ChannelResultsAt(channels, bpm, k);
      var notes := ParseNotes(channels[k].composition, bpm, false);
      if notes.Failure? {
        return Failure(Message(notes.error));
      }
      var played := ApplyChannel(notes.value, channels[k]);
      assert played == MapWithChannel(notes.value, channels[k]);
      all := all + [played];
      k := k + 1;
    }
    assert ChannelNotes(channels, parsed, 0, []) == Success(all);
    var m := 0;
    while m < |all|
      invariant m <= |all|
      invariant forall j :: 0 <= j < m ==> AllFinite(all[j])
    {
      var generated := GenerateSamples(all[m]);
      if generated.Failure? {
        return Failure(generated.error);
      }
      m := m + 1;
    }
    r := Success(Channels(all));
  }
}
