/**
 * The server's check of an uploaded piece of content before it is stored:
 * bounds on the name, the frame rate, the art and the composition, and a
 * composition that the MIDI engine's parser accepts.
 */
module ContentUpload {
  import opened Wrappers
  import opened Text
  import MidiEngine

  const MaxContentNameLength := 200
  const MaxArtSize := 100_000
  const MaxMidiSize := 50_000
  const MinFps := 0.1
  const MaxFps := 120.0

  /** A content upload request; the frame rate is read as an exact real. */
  datatype Request = Request(channelId: int, name: string, art: string, midi: string, fps: real)

  /** The number of bytes a character takes in UTF-8. */
  function Utf8Width(c: char): (n: nat)
    ensures 1 <= n <= 4
  {
    if c as int < 0x80 then 1
    else if c as int < 0x800 then 2
    else if c as int < 0x1_0000 then 3
    else 4
  }

  /** The length of text in UTF-8 bytes, which is what a Rust `len()` measures. */
  function Utf8Len(s: string): (n: nat)
    ensures |s| <= n <= 4 * |s|
  {
    if |s| == 0 then 0 else Utf8Width(s[0]) + Utf8Len(s[1..])
  }

  /** The checks of validate_content_upload, in the order it makes them. */
  datatype Check =
    | NameLength | FpsRange | ArtSize | ArtPresent | MidiSize | MidiPresent | MidiParses

  function Rank(k: Check): nat
  {
    match k
    case NameLength => 0
    case FpsRange => 1
    case ArtSize => 2
    case ArtPresent => 3
    case MidiSize => 4
    case MidiPresent => 5
    case MidiParses => 6
  }

  /** Whether the request passes one check; the composition is parsed at 120 bpm. */
  predicate Passes(r: Request, k: Check)
  {
    match k
    case NameLength => Utf8Len(r.name) <= MaxContentNameLength
    case FpsRange => MinFps <= r.fps <= MaxFps
    case ArtSize => Utf8Len(r.art) <= MaxArtSize
    case ArtPresent => !IsBlank(r.art)
    case MidiSize => Utf8Len(r.midi) <= MaxMidiSize
    case MidiPresent => !IsBlank(r.midi)
    case MidiParses => MidiEngine.NotesOf(r.midi, 120, true).Success?
  }

  /** The text the server answers with when a check fails. */
  function Message(k: Check): string
  {
    match k
    case NameLength => "Content name is too long"
    case FpsRange => "FPS must be between 0.1 and 120.0"
    case ArtSize => "Art content is too large (max 100KB)"
    case ArtPresent => "Art content cannot be empty"
    case MidiSize => "MIDI composition is too large (max 50KB)"
    case MidiPresent => "MIDI composition cannot be empty"
    case MidiParses => "Invalid MIDI composition format"
  }

  /**
   * validate_content_upload: accepts exactly the requests that pass every
   * check, and otherwise reports the first check, in order, that fails.
   */
  function Validate(r: Request): (v: Result<(), Check>)
    ensures v.Success? <==> forall k :: Passes(r, k)
    ensures v.Failure? ==> !Passes(r, v.error)
    ensures v.Failure? ==> forall k :: Rank(k) < Rank(v.error) ==> Passes(r, k)
  {
    TrimBlank(r.art);
    TrimBlank(r.midi);
    if Utf8Len(r.name) > MaxContentNameLength then assert !Passes(r, NameLength); Failure(NameLength)
    else if r.fps < MinFps || r.fps > MaxFps then assert !Passes(r, FpsRange); Failure(FpsRange)
    else if Utf8Len(r.art) > MaxArtSize then assert !Passes(r, ArtSize); Failure(ArtSize)
    else if |Trim(r.art)| == 0 then assert !Passes(r, ArtPresent); Failure(ArtPresent)
    else if Utf8Len(r.midi) > MaxMidiSize then assert !Passes(r, MidiSize); Failure(MidiSize)
    else if |Trim(r.midi)| == 0 then assert !Passes(r, MidiPresent); Failure(MidiPresent)
    else if MidiEngine.NotesOf(r.midi, 120, true).Failure? then assert !Passes(r, MidiParses); Failure(MidiParses)
    else Success(())
  }

  /**
   * As written, an empty content name passes every check that concerns the
   * name, so a request whose other fields are valid is accepted even though
   * its name is empty.
   */
  lemma EmptyNameAccepted(r: Request)
    requires |r.name| == 0
    requires forall k :: k != NameLength ==> Passes(r, k)
    ensures Validate(r).Success?
  {
    assert Passes(r, NameLength);
  }

  /** Why an upload is refused once an empty name counts as a failure of its own. */
  datatype Rejection = EmptyName | Failed(check: Check)

  /**
   * The upload check with the empty-name rule the test at
   * src/server/channel_endpoints.rs:124-135 expects: an empty name is refused
   * first, and every other request is judged as before.
   */
  function ValidateNamed(r: Request): (v: Result<(), Rejection>)
    ensures v.Success? <==> |r.name| > 0 && forall k :: Passes(r, k)
    ensures |r.name| == 0 ==> v == Failure(EmptyName)
    ensures v.Failure? && v.error.Failed? ==>
      |r.name| > 0 && !Passes(r, v.error.check) &&
      forall k :: Rank(k) < Rank(v.error.check) ==> Passes(r, k)
  {
    if |r.name| == 0 then Failure(EmptyName)
    else
      match Validate(r)
      case Success(_) => Success(())
      case Failure(k) => Failure(Failed(k))
  }
}
