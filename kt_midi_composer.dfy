// The Kotlin composer use case: a regular-expression validator for
// compositions of plain note tokens, the parser built on the same
// expression, its unclamped pitch formula and its millisecond durations.

module KtMidiComposer {
  import opened Wrappers
  import opened Text
  import MidiEngine
  import KtMidiParser

  /** The four groups of `^(\d+)([a-gA-G])(#?)(\d?)$`: duration digits, letter, sharp, octave digit. */
  datatype TokenParts = TokenParts(duration: string, letter: char, sharp: bool, octave: Option<char>)

  predicate IsLetter(c: char)
  {
    'a' <= c <= 'g' || 'A' <= c <= 'G'
  }

  /** Parts the expression can produce. */
  predicate WellFormedParts(p: TokenParts)
  {
    |p.duration| > 0 && AllDigits(p.duration) && IsLetter(p.letter) && (p.octave.Some? ==> IsDigit(p.octave.value))
  }

  /** The token text the parts were matched from. */
  function Render(p: TokenParts): string
  {
    p.duration + [p.letter] + (if p.sharp then "#" else "") + (if p.octave.Some? then [p.octave.value] else "")
  }

  /**
   * Anchored matching of the note expression: a non-empty digit run, a
   * letter a–g in either case, an optional `#`, an optional digit, and
   * nothing else.
   */
  function MatchToken(token: string): (r: Option<TokenParts>)
    ensures r.Some? ==> WellFormedParts(r.value) && Render(r.value) == token
  {
    var n := LeadingDigits(token);
    if n == 0 || n == |token| || !IsLetter(token[n]) then None
    else
      var rest := token[n + 1..];
      var sharp := |rest| > 0 && rest[0] == '#';
      var after := if sharp then rest[1..] else rest;
      assert token == token[..n] + [token[n]] + rest;
      if |after| == 0 then Some(TokenParts(token[..n], token[n], sharp, None))
      else if |after| == 1 && IsDigit(after[0]) then Some(TokenParts(token[..n], token[n], sharp, Some(after[0])))
      else None
  }

  /** Every text the expression describes matches, with the parts it was built from. */
  lemma MatchRender(p: TokenParts)
    requires WellFormedParts(p)
    ensures MatchToken(Render(p)) == Some(p)
  {
    var t := Render(p);
    var tail := [p.letter] + (if p.sharp then "#" else "") + (if p.octave.Some? then [p.octave.value] else "");
    assert t == p.duration + tail;
    LeadingDigitsConcat(p.duration, tail);
    var n := |p.duration|;
    assert t[..n] == p.duration && t[n] == p.letter;
    assert t[n + 1..] == (if p.sharp then "#" else "") + (if p.octave.Some? then [p.octave.value] else "");
  }

  /** isValidNoteToken. */
  predicate IsValidNoteToken(token: string)
  {
    MatchToken(token).Some?
  }

  /** validateComposition: a non-blank text whose every whitespace token matches. */
  predicate ValidateComposition(composition: string)
  {
    !IsBlank(composition) && forall t :: t in SplitTrimmed(composition) ==> IsValidNoteToken(t)
  }

  /** The note number 12 + 12·octave + base + sharp, without clamping. */
  function MidiNumber(letter: char, sharp: bool, octave: nat): (r: nat)
    requires IsLetter(letter)
  {
    12 + octave * 12 + MidiEngine.Semitone(ToLower(letter)) + (if sharp then 1 else 0)
  }

  /**
   * A single octave digit keeps the number within 12..132, so it can leave
   * the MIDI range; the parsers that clamp agree with it wherever it stays
   * within 127. Middle C is 60.
   */
  lemma MidiNumberRange(letter: char, sharp: bool, octave: nat)
    requires IsLetter(letter) && octave <= 9
    ensures 12 <= MidiNumber(letter, sharp, octave) <= 132
    ensures MidiEngine.NoteToMidiNumber(ToLower(letter), octave, sharp)
      == if MidiNumber(letter, sharp, octave) > 127 then 127 else MidiNumber(letter, sharp, octave)
    ensures MidiNumber('c', false, 4) == 60 && MidiNumber('B', true, 9) == 132
  {
  }

  const WholeNoteMs := 2000
  const DivisionByZero := "/ by zero"
  const NoValidNotes := "No valid notes found in composition"

  /** parseDuration: a whole note of 2000 ms divided by the duration with integer division. */
  function ParseDuration(d: nat): (r: Result<nat, string>)
    ensures r.Failure? <==> d == 0
    ensures r.Success? ==> r.value * d <= WholeNoteMs < (r.value + 1) * d
  {
    if d == 0 then Failure(DivisionByZero) else Success(WholeNoteMs / d)
  }

  lemma DurationExamples()
    ensures ParseDuration(1) == Success(2000) && ParseDuration(4) == Success(500)
    ensures ParseDuration(3) == Success(666) && ParseDuration(2001) == Success(0)
  {
  }

  /** A note to play: MIDI number, velocity and duration in milliseconds. */
  datatype MidiNote = MidiNote(note: nat, velocity: nat, duration: nat)

  /**
   * parseNoteToken: nothing for a blank or non-matching token; otherwise the
   * duration digits read as an Int (which can overflow) and divided into
   * 2000 ms (which can divide by zero), velocity 100 and octave 4 by default.
   */
  function ParseNoteToken(token: string): (r: Result<Option<MidiNote>, string>)
    ensures r.Success? && r.value.Some? ==> r.value.value.velocity == 100 && 12 <= r.value.value.note <= 132
    ensures MatchToken(token).None? ==> r == Success(None)
  {
    if IsBlank(token) then Success(None)
    else
      match MatchToken(token)
      case None => Success(None)
      case Some(p) =>
        match KtMidiParser.IntOf(p.duration)
        case Failure(e) => Failure(e)
        case Success(d) =>
          match ParseDuration(d)
          case Failure(e) => Failure(e)
          case Success(ms) =>
            var octave := if p.octave.Some? then DigitValue(p.octave.value) else 4;
            MidiNumberRange(p.letter, p.sharp, octave);
            Success(Some(MidiNote(MidiNumber(p.letter, p.sharp, octave), 100, ms)))
  }

  /** A matching token that neither overflows nor has duration 0. */
  predicate PlayableToken(token: string)
  {
    MatchToken(token).Some?
    && 1 <= DigitsValue(MatchToken(token).value.duration) <= KtMidiParser.IntMax
  }

  /** A token yields a note exactly when it is playable; a blank token never matches. */
  lemma PlayableTokenYields(token: string)
    ensures ParseNoteToken(token).Success? && ParseNoteToken(token).value.Some? <==> PlayableToken(token)
  {
  }

  /**
   * parseComposition over the tokens: the notes of the matching tokens in
   * order, the others dropped; an exception from a token ends the call.
   */
  function NotesOfTokens(tokens: seq<string>): (r: Result<seq<MidiNote>, string>)
    ensures r.Success? ==> |r.value| <= |tokens|
  {
    if |tokens| == 0 then Success([])
    else
      match NotesOfTokens(tokens[..|tokens| - 1])
      case Failure(e) => Failure(e)
      case Success(notes) =>
        match ParseNoteToken(tokens[|tokens| - 1])
        case Failure(e) => Failure(e)
        case Success(None) => Success(notes)
        case Success(Some(n)) => Success(notes + [n])
  }

  function ParseComposition(composition: string): Result<seq<MidiNote>, string>
  {
    NotesOfTokens(SplitTrimmed(composition))
  }

  /** Parsing two runs of tokens is parsing each and concatenating the notes. */
  lemma {:induction false} NotesOfTokensConcat(a: seq<string>, b: seq<string>)
    ensures NotesOfTokens(a + b).Success? <==> NotesOfTokens(a).Success? && NotesOfTokens(b).Success?
    ensures NotesOfTokens(a + b).Success? ==> NotesOfTokens(a + b).value == NotesOfTokens(a).value + NotesOfTokens(b).value
  {
    if |b| == 0 {
      assert a + b == a;
    } else {
      var b' := b[..|b| - 1];
      assert (a + b)[..|a + b| - 1] == a + b';
      assert (a + b)[|a + b| - 1] == b[|b| - 1];
      NotesOfTokensConcat(a, b');
    }
  }

  /** Every token gives a note exactly when the parse succeeds with one note per token. */
  lemma {:induction false} EveryTokenANote(tokens: seq<string>)
    ensures (forall k :: 0 <= k < |tokens| ==> PlayableToken(tokens[k]))
      <==> NotesOfTokens(tokens).Success? && |NotesOfTokens(tokens).value| == |tokens|
  {
    if |tokens| > 0 {
      var init := tokens[..|tokens| - 1];
      EveryTokenANote(init);
      PlayableTokenYields(tokens[|tokens| - 1]);
      assert forall k :: 0 <= k < |init| ==> init[k] == tokens[k];
    }
  }

  /** playMidiComposition's check before playback: at least one note must parse. */
  function PlayableNotes(composition: string): (r: Result<seq<MidiNote>, string>)
    ensures r.Success? ==> |r.value| > 0
    ensures ParseComposition(composition) == Success([]) ==> r == Failure(NoValidNotes)
  {
    match ParseComposition(composition)
    case Failure(e) => Failure(e)
    case Success(notes) => if |notes| == 0 then Failure(NoValidNotes) else Success(notes)
  }

  /** A composition that passes validation can still throw when parsed: a zero duration divides by zero. */
  lemma ValidatedButThrows()
    ensures ValidateComposition("0c") && ParseComposition("0c") == Failure(DivisionByZero)
  {
    var p := TokenParts("0", 'c', false, None);
    assert Render(p) == "0c";
    ZeroDurationThrows(p);
  }

  /** A second input: a duration too large for an Int. */
  lemma ValidatedButOverflows()
    ensures ValidateComposition("3000000000c") && ParseComposition("3000000000c") == Failure(KtMidiParser.NumberTooLarge)
  {
    var q := TokenParts("3000000000", 'c', false, None);
    assert Render(q) == "3000000000c";
    ThreeBillion();
    LongDurationThrows(q);
  }

  lemma ThreeBillion()
    ensures DigitsValue("3000000000") == 3000000000
  {
    assert DigitsValue("3") == 3;
    assert "30"[..1] == "3";
    assert DigitsValue("30") == 30;
    assert "300"[..2] == "30";
    assert DigitsValue("300") == 300;
    assert "3000"[..3] == "300";
    assert DigitsValue("3000") == 3000;
    assert "30000"[..4] == "3000";
    assert DigitsValue("30000") == 30000;
    assert "300000"[..5] == "30000";
    assert DigitsValue("300000") == 300000;
    assert "3000000"[..6] == "300000";
    assert DigitsValue("3000000") == 3000000;
    assert "30000000"[..7] == "3000000";
    assert DigitsValue("30000000") == 30000000;
    assert "300000000"[..8] == "30000000";
    assert DigitsValue("300000000") == 300000000;
    assert "3000000000"[..9] == "300000000";
    assert DigitsValue("3000000000") == 3000000000;
  }

  /** A composition of one token validates as that token and parses as that token. */
  lemma SingleToken(token: string)
    requires IsWord(token)
    ensures ValidateComposition(token) <==> IsValidNoteToken(token)
    ensures ParseNoteToken(token).Failure? ==> ParseComposition(token) == Failure(ParseNoteToken(token).error)
    ensures ParseNoteToken(token) == Success(None) ==> ParseComposition(token) == Success([])
    ensures ParseNoteToken(token).Success? && ParseNoteToken(token).value.Some? ==>
      ParseComposition(token) == Success([ParseNoteToken(token).value.value])
  {
    SplitWord(token);
    assert [token][..0] == [];
    assert NotesOfTokens([]) == Success([]);
    var r := ParseNoteToken(token);
    if r.Success? && r.value.Some? {
      assert [] + [r.value.value] == [r.value.value];
    }
  }

  /** A duration of zero passes the expression and then divides by zero. */
  lemma ZeroDurationThrows(p: TokenParts)
    requires WellFormedParts(p) && DigitsValue(p.duration) == 0
    ensures IsWord(Render(p)) && ValidateComposition(Render(p))
    ensures ParseComposition(Render(p)) == Failure(DivisionByZero)
  {
    RenderIsWord(p);
    MatchRender(p);
    SingleToken(Render(p));
  }

  /** A duration beyond Int.MAX_VALUE passes the expression and then overflows `toInt()`. */
  lemma LongDurationThrows(p: TokenParts)
    requires WellFormedParts(p) && DigitsValue(p.duration) > KtMidiParser.IntMax
    ensures IsWord(Render(p)) && ValidateComposition(Render(p))
    ensures ParseComposition(Render(p)) == Failure(KtMidiParser.NumberTooLarge)
  {
    RenderIsWord(p);
    MatchRender(p);
    SingleToken(Render(p));
  }

  lemma RenderIsWord(p: TokenParts)
    requires WellFormedParts(p)
    ensures IsWord(Render(p))
  {
    var t := Render(p);
    forall j | 0 <= j < |t|
      ensures !IsSpace(t[j])
    {
      if j < |p.duration| {
        assert t[j] == p.duration[j];
      }
    }
  }

  /** The validator the parser needs: every token matches with a duration in 1..Int.MAX_VALUE. */
  predicate ValidateCompositionStrictly(composition: string)
  {
    !IsBlank(composition) && forall t :: t in SplitTrimmed(composition) ==> PlayableToken(t)
  }

  /**
   * A non-blank composition passes the strict validator exactly when it
   * parses with one note per token; it then plays.
   */
  lemma StrictValidationParses(composition: string)
    requires !IsBlank(composition)
    ensures ValidateCompositionStrictly(composition) <==>
      ParseComposition(composition).Success? && |ParseComposition(composition).value| == |SplitTrimmed(composition)|
    ensures ValidateCompositionStrictly(composition) ==> ValidateComposition(composition) && PlayableNotes(composition).Success?
  {
    EveryTokenANote(SplitTrimmed(composition));
  }
}
