// The Kotlin app's synthesizer: which path a composition takes (plain
// notes or the flag language), the channel overrides, the per-note sample
// counts and the mixing of channels. The sample values themselves come from
// the waveform generator, which is a parameter here: only how many samples
// it returns is part of the model.

module KtMidiSynthesizer {
  import opened Wrappers
  import opened Text
  import opened MidiEngine
  import MidiChannels
  import KtMidiParser

  const IntMax := 0x7fff_ffff

  /**
   * `(48000 * seconds).toInt()` on a Double: truncation toward zero,
   * clamped to the largest Int, so an infinite duration gives Int.MAX_VALUE.
   * Durations are never negative.
   */
  function KtSampleCount(d: Seconds): (n: nat)
    ensures n <= IntMax
  {
    match d
    case Infinite => IntMax
    case Finite(s) =>
      if s <= 0.0 then 0
      else if (SampleRate as real * s).Floor > IntMax then IntMax
      else (SampleRate as real * s).Floor
  }

  /** The Kotlin count is the Rust count of the same duration, capped at the largest Int. */
  lemma KtCountCapsRustCount(d: Seconds)
    ensures KtSampleCount(d) == if SampleCount(d) > IntMax then IntMax else SampleCount(d)
  {
  }

  /**
   * What a note of infinite duration throws: its count is Int.MAX_VALUE,
   * and `FloatArray(Int.MAX_VALUE)`, in generateNoteSamples for a rest and
   * in the waveform generator otherwise, cannot be allocated. It is an
   * Error, not an Exception, so nothing on the way catches it.
   */
  const OutOfMemory := "OutOfMemoryError: Requested array size exceeds VM limit"

  /**
   * The waveform generator, given a pitch, a duration and the note whose
   * volume, waveform, adsr and vibrato it uses.
   */
  type Tone = (nat, Seconds, Note) -> seq<real>

  /** For a finite duration the generator returns `(48000 * duration).toInt()` samples, whatever their values. */
  ghost predicate ToneLength(tone: Tone)
  {
    forall p: nat, d: Seconds, n: Note :: d.Finite? ==> |tone(p, d, n)| == KtSampleCount(d)
  }

  function Zeros(n: nat): (r: seq<real>)
    ensures |r| == n && forall i :: 0 <= i < n ==> r[i] == 0.0
  {
    seq(n, _ => 0.0)
  }

  /** The samples of the arpeggio members in order, each played for `d`. */
  function MemberSamples(pitches: seq<nat>, d: Seconds, note: Note, tone: Tone): seq<real>
  {
    if |pitches| == 0 then []
    else MemberSamples(pitches[..|pitches| - 1], d, note, tone) + tone(pitches[|pitches| - 1], d, note)
  }

  /**
   * generateNoteSamples: an arpeggio plays each member for an equal share
   * of the note, a pitched note plays its pitch, a rest is silence. A note
   * of infinite duration throws instead.
   */
  function NoteSamples(note: Note, tone: Tone): Result<seq<real>, string>
  {
    if note.duration.Infinite? then Failure(OutOfMemory)
    else if |note.arpeggio| > 0 then Success(MemberSamples(note.arpeggio, Share(note.duration, |note.arpeggio|), note, tone))
    else if note.pitch.Some? then Success(tone(note.pitch.value, note.duration, note))
    else Success(Zeros(KtSampleCount(note.duration)))
  }

  /** The samples of the notes one after the other, or the exception of the first note that throws. */
  function NotesSamples(notes: seq<Note>, tone: Tone): Result<seq<real>, string>
  {
    if |notes| == 0 then Success([])
    else
      match NotesSamples(notes[..|notes| - 1], tone)
      case Failure(e) => Failure(e)
      case Success(init) =>
        match NoteSamples(notes[|notes| - 1], tone)
        case Failure(e) => Failure(e)
        case Success(last) => Success(init + last)
  }

  /** How many samples a note of finite duration lasts. */
  function KtNoteSampleCount(note: Note): nat
  {
    if |note.arpeggio| > 0 then |note.arpeggio| * KtSampleCount(Share(note.duration, |note.arpeggio|))
    else KtSampleCount(note.duration)
  }

  function KtNotesSampleCount(notes: seq<Note>): nat
  {
    if |notes| == 0 then 0 else KtNotesSampleCount(notes[..|notes| - 1]) + KtNoteSampleCount(notes[|notes| - 1])
  }

  lemma {:induction false} MemberSamplesLength(pitches: seq<nat>, d: Seconds, note: Note, tone: Tone)
    requires ToneLength(tone) && d.Finite?
    ensures |MemberSamples(pitches, d, note, tone)| == |pitches| * KtSampleCount(d)
  {
    if |pitches| > 0 {
      MemberSamplesLength(pitches[..|pitches| - 1], d, note, tone);
    }
  }

  /**
   * A note of infinite duration throws; any other lasts as many samples as
   * its duration gives, an arpeggio member as many as its share gives, and
   * a rest is that many zeros.
   */
  lemma NoteSamplesLength(note: Note, tone: Tone)
    requires ToneLength(tone)
    ensures NoteSamples(note, tone).Success? <==> note.duration.Finite?
    ensures NoteSamples(note, tone).Failure? ==> NoteSamples(note, tone).error == OutOfMemory
    ensures NoteSamples(note, tone).Success? ==> |NoteSamples(note, tone).value| == KtNoteSampleCount(note)
    ensures note.duration.Finite? && |note.arpeggio| == 0 && note.pitch.None? ==>
      NoteSamples(note, tone) == Success(Zeros(KtSampleCount(note.duration)))
  {
    if note.duration.Finite? && |note.arpeggio| > 0 {
      MemberSamplesLength(note.arpeggio, Share(note.duration, |note.arpeggio|), note, tone);
    }
  }

  /** A run of notes throws exactly when one of them has an infinite duration, and then with OutOfMemory. */
  lemma {:induction false} NotesSamplesFail(notes: seq<Note>, tone: Tone)
    ensures NotesSamples(notes, tone).Success? <==> AllFinite(notes)
    ensures NotesSamples(notes, tone).Failure? ==> NotesSamples(notes, tone).error == OutOfMemory
  {
    if |notes| > 0 {
      NotesSamplesFail(notes[..|notes| - 1], tone);
      AllFiniteSnoc(notes);
    }
  }

  /** The buffer of a note sequence, when there is one, is as long as its notes together. */
  lemma {:induction false} NotesSamplesLength(notes: seq<Note>, tone: Tone)
    requires ToneLength(tone)
    ensures NotesSamples(notes, tone).Success? ==> |NotesSamples(notes, tone).value| == KtNotesSampleCount(notes)
  {
    if |notes| > 0 {
      NotesSamplesLength(notes[..|notes| - 1], tone);
      NoteSamplesLength(notes[|notes| - 1], tone);
    }
  }

  /** A quarter-note rest at 120 bpm is 24000 zeros, as in the terminal player. */
  lemma QuarterRestSamples(tone: Tone)
    ensures NoteSamples(RestNote(DurationToSeconds(4, 120)), tone) == Success(Zeros(24000))
    ensures KtNoteSampleCount(RestNote(DurationToSeconds(4, 120))) == NoteSampleCount(RestNote(DurationToSeconds(4, 120)))
  {
    RestSampleCount();
    DurationExamples();
    assert (24000.0).Floor == 24000;
  }

  // ---------------------------------------------------------------------
  // generateAudioBuffer

  /** hasFlags: the composition mentions one of the five flags anywhere. */
  predicate HasFlags(composition: string)
  {
    Contains(composition, "--channel") || Contains(composition, "--bpm") || Contains(composition, "--volume")
    || Contains(composition, "--adsr") || Contains(composition, "--vibrato")
  }

  /** The notes of one channel, parsed at tempo `bpm`, with the channel's overrides applied. */
  function ChannelNotesOf(channel: MidiChannels.ChannelConfig, bpm: nat): seq<Note>
  {
    MapWithChannel(KtMidiParser.CompositionOf(channel.composition, bpm), channel)
  }

  /** The samples of one channel, or the exception of its first infinite note. */
  function ChannelSamples(channel: MidiChannels.ChannelConfig, bpm: nat, tone: Tone): Result<seq<real>, string>
  {
    NotesSamples(ChannelNotesOf(channel, bpm), tone)
  }

  /** Every note of every channel has a finite duration. */
  predicate ChannelsFinite(channels: seq<MidiChannels.ChannelConfig>, bpm: nat)
  {
    forall k :: 0 <= k < |channels| ==> AllFinite(ChannelNotesOf(channels[k], bpm))
  }

  /** The buffer of each channel, in order, or the first exception. */
  function ChannelBuffers(channels: seq<MidiChannels.ChannelConfig>, bpm: nat, tone: Tone): (r: Result<seq<seq<real>>, string>)
    ensures r.Success? ==> |r.value| == |channels|
  {
    if |channels| == 0 then Success([])
    else Extend(ChannelBuffers(channels[..|channels| - 1], bpm, tone), ChannelSamples(channels[|channels| - 1], bpm, tone))
  }

  /** One more buffer after the ones before it, or the first exception of the two. */
  function Extend(init: Result<seq<seq<real>>, string>, last: Result<seq<real>, string>): (r: Result<seq<seq<real>>, string>)
    ensures r.Success? <==> init.Success? && last.Success?
    ensures r.Success? ==> r.value == init.value + [last.value]
    ensures r.Failure? ==> r.error == if init.Failure? then init.error else last.error
  {
    match init
    case Failure(e) => Failure(e)
    case Success(buffers) =>
      match last
      case Failure(e) => Failure(e)
      case Success(buffer) => Success(buffers + [buffer])
  }

  /** Buffer `k` is channel `k` played on its own. */
  lemma {:induction false} ChannelBufferAt(channels: seq<MidiChannels.ChannelConfig>, bpm: nat, tone: Tone, k: nat)
    requires k < |channels| && ChannelBuffers(channels, bpm, tone).Success?
    ensures ChannelSamples(channels[k], bpm, tone).Success?
    ensures ChannelBuffers(channels, bpm, tone).value[k] == ChannelSamples(channels[k], bpm, tone).value
  {
    var init := channels[..|channels| - 1];
    var last := ChannelSamples(channels[|channels| - 1], bpm, tone);
    assert ChannelBuffers(channels, bpm, tone).value == ChannelBuffers(init, bpm, tone).value + [last.value];
    if k < |channels| - 1 {
      ChannelBufferAt(init, bpm, tone, k);
      assert init[k] == channels[k];
    }
  }

  /** The channels render exactly when none of their notes has an infinite duration; otherwise they throw OutOfMemory. */
  lemma {:induction false} ChannelBuffersFail(channels: seq<MidiChannels.ChannelConfig>, bpm: nat, tone: Tone)
    ensures ChannelBuffers(channels, bpm, tone).Success? <==> ChannelsFinite(channels, bpm)
    ensures ChannelBuffers(channels, bpm, tone).Failure? ==> ChannelBuffers(channels, bpm, tone).error == OutOfMemory
  {
    if |channels| > 0 {
      var init := channels[..|channels| - 1];
      var last := channels[|channels| - 1];
      ChannelBuffersFail(init, bpm, tone);
      NotesSamplesFail(ChannelNotesOf(last, bpm), tone);
      if ChannelsFinite(init, bpm) && AllFinite(ChannelNotesOf(last, bpm)) {
        forall k | 0 <= k < |channels|
          ensures AllFinite(ChannelNotesOf(channels[k], bpm))
        {
          if k < |channels| - 1 {
            assert channels[k] == init[k];
          }
        }
      }
      if ChannelsFinite(channels, bpm) {
        forall k | 0 <= k < |init|
          ensures AllFinite(ChannelNotesOf(init[k], bpm))
        {
          assert init[k] == channels[k];
        }
      }
    }
  }

  /** The index-wise sum of the buffers, as long as the longest. */
  function Mix(buffers: seq<seq<real>>): (r: seq<real>)
    ensures |r| == MaxLength(buffers)
    ensures forall i :: 0 <= i < |r| ==> r[i] == MixedSample(buffers, |buffers|, i)
  {
    seq(MaxLength(buffers), i requires 0 <= i < MaxLength(buffers) => MixedSample(buffers, |buffers|, i))
  }

  /**
   * generateAudioBufferWithFlags once the flags are parsed: a single
   * channel and no `--channel` in the text is played as it is, otherwise
   * the channels are mixed.
   */
  function FlaggedBuffer(composition: string, channels: seq<MidiChannels.ChannelConfig>, bpm: nat, tone: Tone): Result<seq<real>, string>
  {
    if |channels| == 1 && !Contains(composition, "--channel") then ChannelSamples(channels[0], bpm, tone)
    else
      match ChannelBuffers(channels, bpm, tone)
      case Failure(e) => Failure(e)
      case Success(buffers) => Success(Mix(buffers))
  }

  /** The parser's tempo after generateAudioBuffer: the last `--bpm` of a composition whose flags parse. */
  function BpmAfter(composition: string, bpm: nat): nat
  {
    if !HasFlags(composition) then bpm
    else
      match MidiChannels.ChannelsOf(composition, MidiChannels.Kotlin)
      case Success((_, Some(b))) => b
      case _ => bpm
  }

  /**
   * generateAudioBuffer at parser tempo `bpm`: a flagless composition is the
   * concatenation of its parsable notes; otherwise the flags are parsed,
   * their error is thrown, and the channels are played at the new tempo. A
   * note of infinite duration throws OutOfMemory on either path.
   */
  function AudioBufferOf(composition: string, bpm: nat, tone: Tone): Result<seq<real>, string>
  {
    if !HasFlags(composition) then NotesSamples(KtMidiParser.CompositionOf(composition, bpm), tone)
    else
      match MidiChannels.ChannelsOf(composition, MidiChannels.Kotlin)
      case Failure(e) => Failure(e)
      case Success((channels, _)) => FlaggedBuffer(composition, channels, BpmAfter(composition, bpm), tone)
  }

  /**
   * A flagless composition leaves the tempo alone and throws exactly when
   * one of its parsable notes has an infinite duration; one without a
   * parsable note gives an empty buffer. Any other failure is the flag
   * language's error.
   */
  lemma FlaglessPath(composition: string, bpm: nat, tone: Tone)
    ensures !HasFlags(composition) ==> BpmAfter(composition, bpm) == bpm
    ensures !HasFlags(composition) ==>
      (AudioBufferOf(composition, bpm, tone).Success? <==> AllFinite(KtMidiParser.CompositionOf(composition, bpm)))
    ensures !HasFlags(composition) && |KtMidiParser.CompositionOf(composition, bpm)| == 0 ==> AudioBufferOf(composition, bpm, tone) == Success([])
    ensures AudioBufferOf(composition, bpm, tone).Failure? ==>
      if HasFlags(composition) && MidiChannels.ChannelsOf(composition, MidiChannels.Kotlin).Failure?
      then AudioBufferOf(composition, bpm, tone).error == MidiChannels.ChannelsOf(composition, MidiChannels.Kotlin).error
      else AudioBufferOf(composition, bpm, tone).error == OutOfMemory
  {
    if !HasFlags(composition) {
      NotesSamplesFail(KtMidiParser.CompositionOf(composition, bpm), tone);
    } else if MidiChannels.ChannelsOf(composition, MidiChannels.Kotlin).Success? {
      FlaggedPath(composition, bpm, tone);
    }
  }

  /** With flags that parse, the buffer exists exactly when no channel has a note of infinite duration. */
  lemma FlaggedPath(composition: string, bpm: nat, tone: Tone)
    requires HasFlags(composition) && MidiChannels.ChannelsOf(composition, MidiChannels.Kotlin).Success?
    ensures var channels := MidiChannels.ChannelsOf(composition, MidiChannels.Kotlin).value.0;
      AudioBufferOf(composition, bpm, tone).Success? <==> ChannelsFinite(channels, BpmAfter(composition, bpm))
    ensures AudioBufferOf(composition, bpm, tone).Failure? ==> AudioBufferOf(composition, bpm, tone).error == OutOfMemory
  {
    AudioBufferFlagged(composition, bpm, tone);
    FlaggedBufferFail(composition, MidiChannels.ChannelsOf(composition, MidiChannels.Kotlin).value.0, BpmAfter(composition, bpm), tone);
  }

  /** Parsed channels play exactly when none of their notes has an infinite duration; otherwise they throw OutOfMemory. */
  lemma FlaggedBufferFail(composition: string, channels: seq<MidiChannels.ChannelConfig>, bpm: nat, tone: Tone)
    ensures FlaggedBuffer(composition, channels, bpm, tone).Success? <==> ChannelsFinite(channels, bpm)
    ensures FlaggedBuffer(composition, channels, bpm, tone).Failure? ==> FlaggedBuffer(composition, channels, bpm, tone).error == OutOfMemory
  {
    if |channels| == 1 && !Contains(composition, "--channel") {
      NotesSamplesFail(ChannelNotesOf(channels[0], bpm), tone);
      assert ChannelsFinite(channels, bpm) <==> AllFinite(ChannelNotesOf(channels[0], bpm));
    } else {
      ChannelBuffersFail(channels, bpm, tone);
    }
  }

  /** With flags that parse, generateAudioBuffer is generateAudioBufferWithFlags on the parsed channels at the new tempo. */
  lemma AudioBufferFlagged(composition: string, bpm: nat, tone: Tone)
    requires HasFlags(composition) && MidiChannels.ChannelsOf(composition, MidiChannels.Kotlin).Success?
    ensures AudioBufferOf(composition, bpm, tone)
      == FlaggedBuffer(composition, MidiChannels.ChannelsOf(composition, MidiChannels.Kotlin).value.0, BpmAfter(composition, bpm), tone)
  {
  }

  /** The rest `0-` has an infinite duration, so generateAudioBuffer throws on it whatever the tempo. */
  lemma ZeroRestThrows(bpm: nat, tone: Tone)
    ensures AudioBufferOf("0-", bpm, tone) == Failure(OutOfMemory)
  {
    assert !HasFlags("0-");
    SplitWord("0-");
    assert "0-" == "0" + "-";
    KtMidiParser.RestToken("0", bpm);
    assert KtMidiParser.CompositionOf("0-", bpm) == [RestNote(Infinite)];
    NotesSamplesFail([RestNote(Infinite)], tone);
  }

  /** The length of a flagless buffer is the sum of its notes' sample counts. */
  lemma FlaglessLength(composition: string, bpm: nat, tone: Tone)
    requires ToneLength(tone) && !HasFlags(composition)
    ensures AudioBufferOf(composition, bpm, tone).Success? ==>
      |AudioBufferOf(composition, bpm, tone).value| == KtNotesSampleCount(KtMidiParser.CompositionOf(composition, bpm))
  {
    NotesSamplesLength(KtMidiParser.CompositionOf(composition, bpm), tone);
  }

  /**
   * Several channels, or any `--channel`, are mixed: the buffer is as long
   * as the longest channel, and sample `i` is the sum over the channels long
   * enough to have one.
   */
  lemma MixedChannels(composition: string, channels: seq<MidiChannels.ChannelConfig>, bpm: nat, tone: Tone)
    requires HasFlags(composition) && MidiChannels.ChannelsOf(composition, MidiChannels.Kotlin).Success?
    requires MidiChannels.ChannelsOf(composition, MidiChannels.Kotlin).value.0 == channels
    requires |channels| != 1 || Contains(composition, "--channel")
    ensures AudioBufferOf(composition, bpm, tone).Success? <==> ChannelBuffers(channels, BpmAfter(composition, bpm), tone).Success?
    ensures var buffers := ChannelBuffers(channels, BpmAfter(composition, bpm), tone);
      var r := AudioBufferOf(composition, bpm, tone);
      buffers.Success? ==> r.Success? && |r.value| == MaxLength(buffers.value)
    ensures var buffers := ChannelBuffers(channels, BpmAfter(composition, bpm), tone);
      var r := AudioBufferOf(composition, bpm, tone);
      buffers.Success? ==> r.Success? && forall i :: 0 <= i < |r.value| ==> r.value[i] == MixedSample(buffers.value, |buffers.value|, i)
  {
    AudioBufferFlagged(composition, bpm, tone);
  }

  /** A `--bpm` in a composition whose flags parse becomes the parser's tempo for good. */
  lemma TempoPersists(composition: string, bpm: nat)
    requires HasFlags(composition)
    requires MidiChannels.ChannelsOf(composition, MidiChannels.Kotlin).Success?
    requires MidiChannels.ChannelsOf(composition, MidiChannels.Kotlin).value.1.Some?
    ensures BpmAfter(composition, bpm) == MidiChannels.ChannelsOf(composition, MidiChannels.Kotlin).value.1.value
    ensures 1 <= BpmAfter(composition, bpm) <= 300
  {
    MidiChannels.ChannelsWellFormed(composition, MidiChannels.Kotlin);
  }

  /** generateNoteSamples; a note of infinite duration throws on its first allocation. */
  method GenerateNoteSamples(note: Note, tone: Tone) returns (r: Result<seq<real>, string>)
    ensures r == NoteSamples(note, tone)
  {
    if note.duration.Infinite? {
      return Failure(OutOfMemory);
    }
    if |note.arpeggio| > 0 {
      var d := Share(note.duration, |note.arpeggio|);
      var samples := [];
      var k := 0;
      while k < |note.arpeggio|
        invariant k <= |note.arpeggio|
        invariant samples == MemberSamples(note.arpeggio[..k], d, note, tone)
      {
        assert note.arpeggio[..k + 1][..k] == note.arpeggio[..k];
        samples := samples + tone(note.arpeggio[k], d, note);
        k := k + 1;
      }
      assert note.arpeggio[..k] == note.arpeggio;
      r := Success(samples);
    } else if note.pitch.Some? {
      r := Success(tone(note.pitch.value, note.duration, note));
    } else {
      r := Success(Zeros(KtSampleCount(note.duration)));
    }
  }

  /** The loop that appends the samples of each note; a note that throws ends it. */
  method RenderNotes(notes: seq<Note>, tone: Tone) returns (r: Result<seq<real>, string>)
    ensures r == NotesSamples(notes, tone)
  {
    var samples := [];
    var k := 0;
    while k < |notes|
      invariant k <= |notes|
      invariant NotesSamples(notes[..k], tone) == Success(samples)
    {
      assert notes[..k + 1][..k] == notes[..k];
      var s := GenerateNoteSamples(notes[k], tone);
      if s.Failure? {
        NotesSamplesFail(notes, tone);
        return Failure(s.error);
      }
      samples := samples + s.value;
      k := k + 1;
    }
    assert notes[..k] == notes;
    r := Success(samples);
  }

  /** The synthesizer, driving the parser whose tempo a `--bpm` changes. */
  method GenerateAudioBuffer(parser: KtMidiParser.Parser, composition: string, tone: Tone) returns (r: Result<seq<real>, string>)
    modifies parser
    ensures r == AudioBufferOf(composition, old(parser.bpm), tone)
    ensures parser.bpm == BpmAfter(composition, old(parser.bpm))
  {
    if !HasFlags(composition) {
      var notes := parser.ParseComposition(composition);
      if |notes| == 0 {
        return Success([]);
      }
      r := RenderNotes(notes, tone);
      return;
    }
    var parsed := MidiChannels.ParseChannels(composition, MidiChannels.Kotlin);
    if parsed.Failure? {
      return Failure(parsed.error);
    }
    var (channels, bpm) := parsed.value;
    if bpm.Some? {
      parser.bpm := bpm.value;
    }
    r := PlayFlagged(parser, composition, channels, tone);
  }

  /** generateAudioBufferWithFlags after the tempo is set. */
  method PlayFlagged(parser: KtMidiParser.Parser, composition: string, channels: seq<MidiChannels.ChannelConfig>, tone: Tone)
    returns (r: Result<seq<real>, string>)
    requires |channels| > 0
    ensures r == FlaggedBuffer(composition, channels, parser.bpm, tone)
  {
    if |channels| == 1 && !Contains(composition, "--channel") {
      r := PlayChannel(parser, channels[0], tone);
      return;
    }
    var buffers := RenderChannels(parser, channels, tone);
    if buffers.Failure? {
      return Failure(buffers.error);
    }
    var mixed := MixChannels(buffers.value);
    assert mixed.value == Mix(buffers.value);
    r := Success(mixed.value);
  }

  /** The loop that renders each channel into its own buffer; a channel that throws ends it. */
  method RenderChannels(parser: KtMidiParser.Parser, channels: seq<MidiChannels.ChannelConfig>, tone: Tone)
    returns (r: Result<seq<seq<real>>, string>)
    ensures r == ChannelBuffers(channels, parser.bpm, tone)
  {
    ghost var bpm := parser.bpm;
    var buffers := [];
    var k := 0;
    while k < |channels|
      invariant k <= |channels| && parser.bpm == bpm
      invariant ChannelBuffers(channels[..k], bpm, tone) == Success(buffers)
    {
      var buffer := PlayChannel(parser, channels[k], tone);
      ChannelStep(channels, k, bpm, tone, buffers, buffer);
      if buffer.Failure? {
        ChannelsFailurePersists(channels, k + 1, bpm, tone);
        return Failure(buffer.error);
      }
      buffers := buffers + [buffer.value];
      k := k + 1;
    }
    assert channels[..k] == channels;
    r := Success(buffers);
  }

  /** Rendering channel `k` extends the buffers of the channels before it, or throws its exception. */
  lemma ChannelStep(channels: seq<MidiChannels.ChannelConfig>, k: nat, bpm: nat, tone: Tone, buffers: seq<seq<real>>, buffer: Result<seq<real>, string>)
    requires k < |channels|
    requires ChannelBuffers(channels[..k], bpm, tone) == Success(buffers)
    requires buffer == ChannelSamples(channels[k], bpm, tone)
    ensures buffer.Success? ==> ChannelBuffers(channels[..k + 1], bpm, tone) == Success(buffers + [buffer.value])
    ensures buffer.Failure? ==> ChannelBuffers(channels[..k + 1], bpm, tone) == Failure(buffer.error)
  {
    var prefix := channels[..k + 1];
    assert prefix[..|prefix| - 1] == channels[..k];
    assert prefix[|prefix| - 1] == channels[k];
  }

  /** Once the first `k` channels throw, so do all of them, with the same exception. */
  lemma {:induction false} ChannelsFailurePersists(channels: seq<MidiChannels.ChannelConfig>, k: nat, bpm: nat, tone: Tone)
    requires k <= |channels| && ChannelBuffers(channels[..k], bpm, tone).Failure?
    ensures ChannelBuffers(channels, bpm, tone) == ChannelBuffers(channels[..k], bpm, tone)
    decreases |channels| - k
  {
    if k < |channels| {
      assert channels[..k + 1][..k] == channels[..k];
      ChannelsFailurePersists(channels, k + 1, bpm, tone);
    } else {
      assert channels[..k] == channels;
    }
  }

  /** One channel: parse, override each note, render. */
  method PlayChannel(parser: KtMidiParser.Parser, channel: MidiChannels.ChannelConfig, tone: Tone) returns (r: Result<seq<real>, string>)
    ensures r == ChannelSamples(channel, parser.bpm, tone)
  {
    var notes := parser.ParseComposition(channel.composition);
    var played := ApplyChannel(notes, channel);
    assert played == MapWithChannel(notes, channel);
    r := RenderNotes(played, tone);
  }
}
