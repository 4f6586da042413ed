/**
 * The channel flag language of compositions: `--volume V`, `--bpm B`,
 * `--adsr`, `--vibrato` and `--channel`, followed by runs of note tokens.
 * Both implementations (src/midi_composer/channels.rs and the Kotlin
 * MidiFlags.kt) are one loop over whitespace tokens; they differ in how
 * blank input is tokenised and in how the `--bpm` value is read, which the
 * `Dialect` parameter selects.
 */
module MidiChannels {
  import opened Wrappers
  import opened Text

  datatype Dialect = Rust | Kotlin

  /** Flags set globally (before any `--channel`) or for the channel being opened. */
  datatype Flags = Flags(volume: Option<real>, adsr: bool, vibrato: bool)

  const NoFlags := Flags(None, false, false)

  /** A channel: its space-joined composition and the flags it plays with. */
  datatype ChannelConfig = ChannelConfig(composition: string, volume: Option<real>, adsr: bool, vibrato: bool)

  /** The variables of the parsing loop besides the token index. */
  datatype FlagState = FlagState(
    global: Flags,
    current: Flags,
    bpm: Option<nat>,
    channels: seq<ChannelConfig>,
    foundChannel: bool)

  const StartState := FlagState(NoFlags, NoFlags, None, [], false)

  const EmptyInput := "Empty input"
  const MissingVolume := "Missing value for --volume"
  const VolumeRange := "Volume must be between 0.0 and 1.0, got "
  const MissingBpm := "Missing value for --bpm"
  const BpmRange := "BPM must be between 1 and 300, got "
  const NoComposition := "--channel found but no composition provided"
  const EmptyComposition := "Empty composition for channel"
  const NoChannels := "No channels or compositions found"

  function InvalidVolume(tok: string): string
  {
    "Invalid volume value: '" + tok + "'"
  }

  function InvalidBpm(tok: string): string
  {
    "Invalid BPM value: '" + tok + "'"
  }

  /**
   * The tokens of the input: whitespace-separated words. The Kotlin version
   * splits the trimmed text on whitespace runs, so blank text gives one
   * empty token instead of none.
   */
  function Tokens(input: string, dialect: Dialect): (r: seq<string>)
    ensures |r| > 0 || dialect == Rust
    ensures forall k :: 0 <= k < |r| ==> IsWord(r[k]) || r == [""]
  {
    match dialect
    case Kotlin => SplitTrimmed(input)
    case Rust => Words(input)
  }

  /** `u16` parsing in Rust; `toIntOrNull` (32-bit, signed) in Kotlin. */
  function ParseBpm(tok: string, dialect: Dialect): Option<int>
  {
    match dialect
    case Rust => (match ParseUnsigned(tok, 0x1_0000) case Some(v) => Some(v) case None => None)
    case Kotlin => ParseSigned(tok, -0x8000_0000, 0x7fff_ffff)
  }

  /** End of the run of tokens from `i` on that do not start with `--`. */
  function RunEnd(tokens: seq<string>, i: nat): (j: nat)
    requires i <= |tokens|
    ensures i <= j <= |tokens|
    ensures forall k :: i <= k < j ==> !StartsWith(tokens[k], "--")
    ensures j < |tokens| ==> StartsWith(tokens[j], "--")
    decreases |tokens| - i
  {
    if i == |tokens| || StartsWith(tokens[i], "--") then i else RunEnd(tokens, i + 1)
  }

  /** The composition text the inner loop builds from `acc` and the run of tokens at `i`. */
  function RunText(tokens: seq<string>, i: nat, acc: string): string
    requires i <= |tokens|
    decreases |tokens| - i
  {
    if i == |tokens| || StartsWith(tokens[i], "--") then acc
    else RunText(tokens, i + 1, (if |acc| > 0 then acc + " " else acc) + tokens[i])
  }

  /** For non-empty tokens, the composition is the run of tokens joined by single spaces. */
  lemma {:induction false} RunTextIsJoin(tokens: seq<string>, done: seq<string>, i: nat)
    requires i <= |tokens|
    requires forall k :: 0 <= k < |tokens| ==> |tokens[k]| > 0
    requires forall k :: 0 <= k < |done| ==> |done[k]| > 0
    ensures RunText(tokens, i, Join(done, " ")) == Join(done + tokens[i..RunEnd(tokens, i)], " ")
    decreases |tokens| - i
  {
    if i == |tokens| || StartsWith(tokens[i], "--") {
      assert done + tokens[i..RunEnd(tokens, i)] == done;
    } else {
      JoinEmpty(done, " ");
      JoinSnoc(done, tokens[i], " ");
      var acc := Join(done, " ");
      assert (if |acc| > 0 then acc + " " else acc) + tokens[i] == Join(done + [tokens[i]], " ");
      assert RunEnd(tokens, i) == RunEnd(tokens, i + 1);
      RunTextIsJoin(tokens, done + [tokens[i]], i + 1);
      assert done + [tokens[i]] + tokens[i + 1..RunEnd(tokens, i + 1)] == done + tokens[i..RunEnd(tokens, i)];
    }
  }

  /** `a` is where `b` starts: channels are only ever appended. */
  predicate IsPrefix(a: seq<ChannelConfig>, b: seq<ChannelConfig>)
  {
    |a| <= |b| && b[..|a|] == a
  }

  /** The channel a composition run opens: the channel's own flags, falling back to the global ones. */
  function Inherit(current: Flags, global: Flags, composition: string): ChannelConfig
  {
    ChannelConfig(
      composition,
      if current.volume.Some? then current.volume else global.volume,
      current.adsr || global.adsr,
      current.vibrato || global.vibrato)
  }

  /** The flags a flag token changes: the pending channel's, or the global ones when no `--channel` is pending. */
  function Scoped(st: FlagState): Flags
  {
    if st.foundChannel then st.current else st.global
  }

  function SetScoped(st: FlagState, f: Flags): FlagState
  {
    if st.foundChannel then st.(current := f) else st.(global := f)
  }

  /**
   * One pass of the parsing loop as written: the next token index and loop
   * state, or the error. A token that starts with `--` but is no known flag,
   * outside a pending `--channel`, yields an empty run and leaves both
   * unchanged.
   */
  function RawStep(tokens: seq<string>, i: nat, st: FlagState, dialect: Dialect): (r: Result<(nat, FlagState), string>)
    requires i < |tokens|
    ensures r.Success? ==> i <= r.value.0 <= |tokens|
    ensures r.Success? ==> IsPrefix(st.channels, r.value.1.channels)
  {
    var tok := tokens[i];
    if tok == "--volume" then
      if i + 1 >= |tokens| then Failure(MissingVolume)
      else
        match ParseDecimal(tokens[i + 1])
        case None => Failure(InvalidVolume(tokens[i + 1]))
        case Some(v) =>
          if !(0.0 <= v <= 1.0) then Failure(VolumeRange + tokens[i + 1])
          else Success((i + 2, SetScoped(st, Scoped(st).(volume := Some(v)))))
    else if tok == "--bpm" then
      if i + 1 >= |tokens| then Failure(MissingBpm)
      else
        match ParseBpm(tokens[i + 1], dialect)
        case None => Failure(InvalidBpm(tokens[i + 1]))
        case Some(b) =>
          if !(1 <= b <= 300) then Failure(BpmRange + IntToString(b))
          else Success((i + 2, st.(bpm := Some(b as nat))))
    else if tok == "--adsr" then Success((i + 1, SetScoped(st, Scoped(st).(adsr := true))))
    else if tok == "--vibrato" then Success((i + 1, SetScoped(st, Scoped(st).(vibrato := true))))
    else if tok == "--channel" then
      if st.foundChannel && |st.channels| == 0 then Failure(NoComposition)
      else Success((i + 1, st.(foundChannel := true, current := NoFlags)))
    else
      var j := RunEnd(tokens, i);
      var composition := RunText(tokens, i, "");
      if st.foundChannel then
        if |composition| == 0 then Failure(EmptyComposition)
        else Success((j, st.(channels := st.channels + [Inherit(st.current, st.global, composition)], foundChannel := false)))
      else if |composition| > 0 then
        Success((j, st.(channels := st.channels + [ChannelConfig(composition, st.global.volume, st.global.adsr, st.global.vibrato)])))
      else Success((j, st))
  }

  /**
   * As written, an unknown `--` token outside a pending `--channel` leaves the
   * index and every variable of the loop unchanged, so the loop never ends.
   */
  lemma UnknownFlagStalls(tokens: seq<string>, i: nat, st: FlagState, dialect: Dialect)
    requires i < |tokens| && StartsWith(tokens[i], "--") && !st.foundChannel
    requires tokens[i] !in {"--volume", "--bpm", "--adsr", "--vibrato", "--channel"}
    ensures RawStep(tokens, i, st, dialect) == Success((i, st))
  {
    assert RunText(tokens, i, "") == "";
  }

  /** The only way the loop as written fails to advance is that unknown flag. */
  lemma {:induction false} OnlyUnknownFlagStalls(tokens: seq<string>, i: nat, st: FlagState, dialect: Dialect)
    requires i < |tokens|
    requires RawStep(tokens, i, st, dialect).Success? && RawStep(tokens, i, st, dialect).value.0 == i
    ensures StartsWith(tokens[i], "--") && !st.foundChannel
    ensures tokens[i] !in {"--volume", "--bpm", "--adsr", "--vibrato", "--channel"}
  {
    if !StartsWith(tokens[i], "--") {
      assert RunEnd(tokens, i) == RunEnd(tokens, i + 1);
    }
  }

  /** One pass of the loop, with an unrecognised flag outside a channel skipped. */
  function Step(tokens: seq<string>, i: nat, st: FlagState, dialect: Dialect): (r: Result<(nat, FlagState), string>)
    requires i < |tokens|
    ensures r.Success? ==> i < r.value.0 <= |tokens|
    ensures r.Success? ==> IsPrefix(st.channels, r.value.1.channels)
  {
    match RawStep(tokens, i, st, dialect)
    case Failure(e) => Failure(e)
    case Success(p) => if p.0 == i then Success((i + 1, p.1)) else Success(p)
  }

  /** After the last token: a pending `--channel` or no channel at all is an error. */
  function Finish(st: FlagState): (r: Result<(seq<ChannelConfig>, Option<nat>), string>)
    ensures r.Success? <==> !st.foundChannel && |st.channels| > 0
    ensures r.Success? ==> r.value == (st.channels, st.bpm)
  {
    if st.foundChannel then Failure(NoComposition)
    else if |st.channels| == 0 then Failure(NoChannels)
    else Success((st.channels, st.bpm))
  }

  /** What the loop promises about its state: channel texts non-empty, volumes in [0, 1], bpm in 1..=300. */
  predicate GoodVolume(v: Option<real>)
  {
    v.Some? ==> 0.0 <= v.value <= 1.0
  }

  predicate WellFormed(st: FlagState)
  {
    && GoodVolume(st.global.volume)
    && GoodVolume(st.current.volume)
    && (st.bpm.Some? ==> 1 <= st.bpm.value <= 300)
    && forall k :: 0 <= k < |st.channels| ==> |st.channels[k].composition| > 0 && GoodVolume(st.channels[k].volume)
  }

  lemma StepWellFormed(tokens: seq<string>, i: nat, st: FlagState, dialect: Dialect)
    requires i < |tokens| && WellFormed(st)
    requires Step(tokens, i, st, dialect).Success?
    ensures WellFormed(Step(tokens, i, st, dialect).value.1)
  {
    var tok := tokens[i];
    if tok == "--volume" || tok == "--bpm" || tok == "--adsr" || tok == "--vibrato" || tok == "--channel" {
      FlagWellFormed(tokens, i, st, dialect);
    } else {
      RunWellFormed(tokens, i, st, dialect);
    }
  }

  lemma FlagWellFormed(tokens: seq<string>, i: nat, st: FlagState, dialect: Dialect)
    requires i < |tokens| && WellFormed(st)
    requires tokens[i] in {"--volume", "--bpm", "--adsr", "--vibrato", "--channel"}
    requires RawStep(tokens, i, st, dialect).Success?
    ensures WellFormed(RawStep(tokens, i, st, dialect).value.1)
  {
  }

  lemma RunWellFormed(tokens: seq<string>, i: nat, st: FlagState, dialect: Dialect)
    requires i < |tokens| && WellFormed(st)
    requires tokens[i] !in {"--volume", "--bpm", "--adsr", "--vibrato", "--channel"}
    requires RawStep(tokens, i, st, dialect).Success?
    ensures WellFormed(RawStep(tokens, i, st, dialect).value.1)
  {
  }

  /** The loop from token `i` on, then the final checks. */
  function Scan(tokens: seq<string>, i: nat, st: FlagState, dialect: Dialect): (r: Result<(seq<ChannelConfig>, Option<nat>), string>)
    requires i <= |tokens|
    ensures r.Success? ==> |r.value.0| > 0 && IsPrefix(st.channels, r.value.0)
    decreases |tokens| - i
  {
    if i == |tokens| then Finish(st)
    else
      match Step(tokens, i, st, dialect)
      case Failure(e) => Failure(e)
      case Success(p) => Scan(tokens, p.0, p.1, dialect)
  }

  /** parse_channels / parseChannels: the channels in input order and the last `--bpm`, or the first error. */
  function ChannelsOf(input: string, dialect: Dialect): (r: Result<(seq<ChannelConfig>, Option<nat>), string>)
  {
    var tokens := Tokens(input, dialect);
    if |tokens| == 0 then Failure(EmptyInput) else Scan(tokens, 0, StartState, dialect)
  }

  /** One turn of the loop: a failing step fails the scan, a successful one continues it. */
  lemma ScanAt(tokens: seq<string>, i: nat, st: FlagState, dialect: Dialect)
    requires i < |tokens|
    ensures Step(tokens, i, st, dialect).Failure? ==> Scan(tokens, i, st, dialect) == Failure(Step(tokens, i, st, dialect).error)
    ensures Step(tokens, i, st, dialect).Success? ==>
      Scan(tokens, i, st, dialect) == Scan(tokens, Step(tokens, i, st, dialect).value.0, Step(tokens, i, st, dialect).value.1, dialect)
  {
  }

  /** The inner loop: the composition of the run of note tokens at `start`, and where the run ends. */
  method ReadRun(tokens: seq<string>, start: nat) returns (composition: string, i: nat)
    requires start <= |tokens|
    ensures composition == RunText(tokens, start, "") && i == RunEnd(tokens, start)
  {
    composition := "";
    i := start;
    while i < |tokens| && !StartsWith(tokens[i], "--")
      invariant start <= i <= |tokens|
      invariant RunEnd(tokens, i) == RunEnd(tokens, start)
      invariant RunText(tokens, i, composition) == RunText(tokens, start, "")
      decreases |tokens| - i
    {
      if |composition| > 0 {
        composition := composition + " ";
      }
      composition := composition + tokens[i];
      i := i + 1;
    }
  }

  /** The `--volume` branch of the loop: the value goes to the pending channel or to the global flags. */
  method VolumeToken(tokens: seq<string>, i: nat, global: Flags, current: Flags, bpm: Option<nat>,
                     channels: seq<ChannelConfig>, found: bool, dialect: Dialect)
    returns (r: Result<(nat, FlagState), string>)
    requires i < |tokens| && tokens[i] == "--volume"
    ensures r == Step(tokens, i, FlagState(global, current, bpm, channels, found), dialect)
  {
    if i + 1 >= |tokens| {
      return Failure(MissingVolume);
    }
    var vol := ParseDecimal(tokens[i + 1]);
    if vol.None? {
      return Failure(InvalidVolume(tokens[i + 1]));
    }
    if !(0.0 <= vol.value <= 1.0) {
      return Failure(VolumeRange + tokens[i + 1]);
    }
    var global, current := global, current;
    if found {
      current := current.(volume := Some(vol.value));
    } else {
      global := global.(volume := Some(vol.value));
    }
    r := Success((i + 2, FlagState(global, current, bpm, channels, found)));
  }

  /** The `--bpm` branch of the loop: the tempo replaces any earlier one. */
  method BpmToken(tokens: seq<string>, i: nat, global: Flags, current: Flags, bpm: Option<nat>,
                  channels: seq<ChannelConfig>, found: bool, dialect: Dialect)
    returns (r: Result<(nat, FlagState), string>)
    requires i < |tokens| && tokens[i] == "--bpm"
    ensures r == Step(tokens, i, FlagState(global, current, bpm, channels, found), dialect)
  {
    if i + 1 >= |tokens| {
      return Failure(MissingBpm);
    }
    var b := ParseBpm(tokens[i + 1], dialect);
    if b.None? {
      return Failure(InvalidBpm(tokens[i + 1]));
    }
    if !(1 <= b.value <= 300) {
      return Failure(BpmRange + IntToString(b.value));
    }
    r := Success((i + 2, FlagState(global, current, Some(b.value as nat), channels, found)));
  }

  /** One turn of the parsing loop, over the loop's own variables. */
  method ScanToken(tokens: seq<string>, i: nat, global: Flags, current: Flags, bpm: Option<nat>,
                   channels: seq<ChannelConfig>, found: bool, dialect: Dialect)
    returns (r: Result<(nat, FlagState), string>)
    requires i < |tokens|
    ensures r == Step(tokens, i, FlagState(global, current, bpm, channels, found), dialect)
  {
    var token := tokens[i];
    if token == "--volume" {
      r := VolumeToken(tokens, i, global, current, bpm, channels, found, dialect);
      return;
    } else if token == "--bpm" {
      r := BpmToken(tokens, i, global, current, bpm, channels, found, dialect);
      return;
    }
    var global, current, channels, found, i := global, current, channels, found, i;
    if token == "--adsr" {
      if found {
        current := current.(adsr := true);
      } else {
        global := global.(adsr := true);
      }
      i := i + 1;
    } else if token == "--vibrato" {
      if found {
        current := current.(vibrato := true);
      } else {
        global := global.(vibrato := true);
      }
      i := i + 1;
    } else if token == "--channel" {
      if found && |channels| == 0 {
        return Failure(NoComposition);
      }
      found := true;
      current := NoFlags;
      i := i + 1;
    } else {
      var start := i;
      var composition;
      composition, i := ReadRun(tokens, i);
      if found {
        if |composition| == 0 {
          return Failure(EmptyComposition);
        }
        channels := channels + [Inherit(current, global, composition)];
        found := false;
      } else if |composition| > 0 {
        channels := channels + [ChannelConfig(composition, global.volume, global.adsr, global.vibrato)];
      } else if i == start {
        // An unrecognised flag outside a channel: skipped (see UnknownFlagStalls).
        i := i + 1;
      }
    }
    r := Success((i, FlagState(global, current, bpm, channels, found)));
  }

  method ParseChannels(input: string, dialect: Dialect) returns (r: Result<(seq<ChannelConfig>, Option<nat>), string>)
    ensures r == ChannelsOf(input, dialect)
  {
    var tokens := Tokens(input, dialect);
    if |tokens| == 0 {
      return Failure(EmptyInput);
    }
    var global := NoFlags;
    var current := NoFlags;
    var bpm: Option<nat> := None;
    var channels: seq<ChannelConfig> := [];
    var i := 0;
    var found := false;
    while i < |tokens|
      invariant i <= |tokens|
      invariant Scan(tokens, i, FlagState(global, current, bpm, channels, found), dialect) == ChannelsOf(input, dialect)
      decreases |tokens| - i
    {
      ScanAt(tokens, i, FlagState(global, current, bpm, channels, found), dialect);
      var step := ScanToken(tokens, i, global, current, bpm, channels, found, dialect);
      if step.Failure? {
        return Failure(step.error);
      }
      i := step.value.0;
      global, current, bpm, channels, found := step.value.1.global, step.value.1.current, step.value.1.bpm, step.value.1.channels, step.value.1.foundChannel;
    }
    r := Finish(FlagState(global, current, bpm, channels, found));
  }

  /** Blank input is an error: "Empty input" in Rust, and no channel at all in Kotlin. */
  lemma BlankInputFails(input: string, dialect: Dialect)
    requires IsBlank(input)
    ensures ChannelsOf(input, dialect) == Failure(if dialect == Rust then EmptyInput else NoChannels)
  {
    WordsOfBlank(input);
    if dialect == Kotlin {
      var tokens := Tokens(input, dialect);
      assert tokens == [""] && !StartsWith(tokens[0], "--");
      assert RunEnd(tokens, 0) == 1;
      assert RunText(tokens, 0, "") == RunText(tokens, 1, "") == "";
      assert RawStep(tokens, 0, StartState, dialect) == Success((1, StartState));
      assert Step(tokens, 0, StartState, dialect) == Success((1, StartState));
      assert Scan(tokens, 1, StartState, dialect) == Failure(NoChannels);
      ScanAt(tokens, 0, StartState, dialect);
    }
  }

  /** A successful parse has channels with non-empty compositions and volumes in [0, 1], and a bpm in 1..=300. */
  lemma {:induction false} ScanWellFormed(tokens: seq<string>, i: nat, st: FlagState, dialect: Dialect)
    requires i <= |tokens| && WellFormed(st)
    requires Scan(tokens, i, st, dialect).Success?
    ensures var (channels, bpm) := Scan(tokens, i, st, dialect).value;
      && (bpm.Some? ==> 1 <= bpm.value <= 300)
      && forall k :: 0 <= k < |channels| ==> |channels[k].composition| > 0 && GoodVolume(channels[k].volume)
    decreases |tokens| - i
  {
    if i < |tokens| {
      StepWellFormed(tokens, i, st, dialect);
      var p := Step(tokens, i, st, dialect).value;
      ScanWellFormed(tokens, p.0, p.1, dialect);
    }
  }

  lemma ChannelsWellFormed(input: string, dialect: Dialect)
    requires ChannelsOf(input, dialect).Success?
    ensures var (channels, bpm) := ChannelsOf(input, dialect).value;
      && |channels| > 0
      && (bpm.Some? ==> 1 <= bpm.value <= 300)
      && forall k :: 0 <= k < |channels| ==> |channels[k].composition| > 0 && GoodVolume(channels[k].volume)
  {
    ScanWellFormed(Tokens(input, dialect), 0, StartState, dialect);
  }

  /**
   * `--volume` takes the next token as a number in [0, 1], for the pending
   * channel or globally; a missing, non-numeric or out-of-range value is an
   * error.
   */
  lemma VolumeFlag(tokens: seq<string>, i: nat, st: FlagState, dialect: Dialect)
    requires i < |tokens| && tokens[i] == "--volume"
    ensures var r := Step(tokens, i, st, dialect);
      r.Success? <==> i + 1 < |tokens| && ParseDecimal(tokens[i + 1]).Some? && 0.0 <= ParseDecimal(tokens[i + 1]).value <= 1.0
    ensures var r := Step(tokens, i, st, dialect);
      r.Success? ==> r.value.0 == i + 2 && r.value.1 == SetScoped(st, Scoped(st).(volume := ParseDecimal(tokens[i + 1])))
  {
  }

  /** `--bpm` takes the next token as an integer in 1..=300 and replaces any earlier one. */
  lemma BpmFlag(tokens: seq<string>, i: nat, st: FlagState, dialect: Dialect)
    requires i < |tokens| && tokens[i] == "--bpm"
    ensures var r := Step(tokens, i, st, dialect);
      r.Success? <==> i + 1 < |tokens| && ParseBpm(tokens[i + 1], dialect).Some? && 1 <= ParseBpm(tokens[i + 1], dialect).value <= 300
    ensures var r := Step(tokens, i, st, dialect);
      r.Success? ==> r.value.0 == i + 2 && r.value.1 == st.(bpm := Some(ParseBpm(tokens[i + 1], dialect).value as nat))
  {
  }

  /**
   * `--channel` opens a channel with fresh flags; it is an error only while
   * an opened channel is still unfilled and no channel exists yet.
   */
  lemma ChannelFlag(tokens: seq<string>, i: nat, st: FlagState, dialect: Dialect)
    requires i < |tokens| && tokens[i] == "--channel"
    ensures Step(tokens, i, st, dialect).Failure? <==> st.foundChannel && |st.channels| == 0
    ensures Step(tokens, i, st, dialect).Success? ==>
      Step(tokens, i, st, dialect).value == (i + 1, st.(foundChannel := true, current := NoFlags))
  {
  }

  /**
   * A run of note tokens becomes one channel whose composition is the run
   * joined by spaces; after `--channel` it takes the channel's flags over
   * the global ones, otherwise it carries the global flags.
   */
  lemma {:induction false} NoteRun(tokens: seq<string>, i: nat, st: FlagState, dialect: Dialect)
    requires i < |tokens| && !StartsWith(tokens[i], "--")
    requires forall k :: 0 <= k < |tokens| ==> IsWord(tokens[k])
    ensures var j := RunEnd(tokens, i);
      && i < j
      && Step(tokens, i, st, dialect) == Success((j, st.(
        channels := st.channels + [Inherit(if st.foundChannel then st.current else NoFlags, st.global, Join(tokens[i..j], " "))],
        foundChannel := false)))
  {
    assert tokens[i] != "--volume" && tokens[i] != "--bpm" && tokens[i] != "--adsr" && tokens[i] != "--vibrato" && tokens[i] != "--channel";
    assert RunEnd(tokens, i) == RunEnd(tokens, i + 1);
    var j := RunEnd(tokens, i);
    RunTextIsJoin(tokens, [], i);
    assert [] + tokens[i..j] == tokens[i..j];
    assert Join([], " ") == "";
    JoinEmpty(tokens[i..j], " ");
  }
}
