/**
 * The terminal's sprite player (src/ui/ascii_art_player.rs): a parsed
 * sprite sheet, the frame on show and a timer that moves to the next frame,
 * round and round, each time 1/fps seconds have gathered.
 */
module AsciiArtPlayer {
  import opened Wrappers
  import AsciiArtSheet
  import opened Text

  /**
   * Whether the timer has reached one frame's duration, 1/fps. A rate of 0
   * makes the duration infinite, so that time never comes.
   */
  predicate Due(timer: real, fps: real)
  {
    fps != 0.0 && timer >= 1.0 / fps
  }

  /** The frame on show and the time gathered towards the next one. */
  datatype Playback = Playback(frame: nat, timer: real)

  /**
   * update: with more than one frame, `delta` is added to the timer; when
   * it reaches a frame's duration, that duration is taken off and the
   * player moves to the next frame, wrapping to the first after the last.
   */
  function Updated(frameCount: nat, p: Playback, fps: real, delta: real): (r: Playback)
    ensures frameCount <= 1 ==> r == p
    ensures p.frame < frameCount ==> r.frame < frameCount
    ensures frameCount > 1 ==> r.frame == p.frame || r.frame == (p.frame + 1) % frameCount
    ensures r.frame != p.frame ==> Due(p.timer + delta, fps)
  {
    if frameCount <= 1 then p
    else
      var t := p.timer + delta;
      if Due(t, fps) then Playback((p.frame + 1) % frameCount, t - 1.0 / fps)
      else Playback(p.frame, t)
  }

  /** The playback after one update per delta, in order. */
  function UpdatedAll(frameCount: nat, p: Playback, fps: real, deltas: seq<real>): Playback
    decreases |deltas|
  {
    if |deltas| == 0 then p
    else UpdatedAll(frameCount, Updated(frameCount, p, fps, deltas[0]), fps, deltas[1..])
  }

  /**
   * Fed exactly one frame's duration per update, the player shows each
   * frame in turn: after k updates it is k frames further on, modulo the
   * frame count, and the timer is back at 0.
   */
  lemma {:induction false} SteadyCycle(frameCount: nat, frame: nat, fps: real, k: nat)
    requires frameCount > 1 && frame < frameCount && fps > 0.0
    decreases k
    ensures UpdatedAll(frameCount, Playback(frame, 0.0), fps, seq(k, _ => 1.0 / fps))
      == Playback((frame + k) % frameCount, 0.0)
  {
    if k > 0 {
      var deltas := seq(k, _ => 1.0 / fps);
      var next := Updated(frameCount, Playback(frame, 0.0), fps, 1.0 / fps);
      assert next == Playback((frame + 1) % frameCount, 0.0);
      assert deltas[1..] == seq(k - 1, _ => 1.0 / fps);
      SteadyCycle(frameCount, (frame + 1) % frameCount, fps, k - 1);
      assert UpdatedAll(frameCount, Playback(frame, 0.0), fps, deltas)
        == UpdatedAll(frameCount, next, fps, deltas[1..]);
      WrapStep(frame, k - 1, frameCount);
    }
  }

  /**
   * The source's own scenario: two frames at 10 fps, updates of 0.05, 0.06
   * and 0.1 seconds show frames 0, 1 and 0.
   */
  lemma TwoFrameScenario()
    ensures Updated(2, Playback(0, 0.0), 10.0, 0.05).frame == 0
    ensures Updated(2, Updated(2, Playback(0, 0.0), 10.0, 0.05), 10.0, 0.06).frame == 1
    ensures Updated(2, Updated(2, Updated(2, Playback(0, 0.0), 10.0, 0.05), 10.0, 0.06), 10.0, 0.1).frame == 0
  {
    var p1 := Updated(2, Playback(0, 0.0), 10.0, 0.05);
    assert p1 == Playback(0, 0.05);
    var p2 := Updated(2, p1, 10.0, 0.06);
    assert p2 == Playback(1, 0.01);
  }

  class Player {
    var sheet: AsciiArtSheet.Sheet
    var currentFrame: nat
    var frameTimer: real
    var fps: real

    /** The frame on show is one of the sheet's frames. */
    predicate Valid()
      reads this
    {
      currentFrame < |sheet.frames|
    }

    /** The playback state as a value. */
    function Position(): Playback
      reads this
    {
      Playback(currentFrame, frameTimer)
    }

    /** A player at the first frame of a sheet, its timer at 0. */
    constructor FromSheet(sheet: AsciiArtSheet.Sheet, fps: real)
      requires |sheet.frames| > 0
      ensures Valid() && this.sheet == sheet && this.fps == fps
      ensures currentFrame == 0 && frameTimer == 0.0
    {
      this.sheet := sheet;
      this.fps := fps;
      currentFrame := 0;
      frameTimer := 0.0;
    }

    /** from_string: fails exactly when the sheet does not parse, and starts at frame 0 otherwise. */
    static method FromString(content: string, fps: real) returns (r: Result<Player, AsciiArtSheet.SheetError>)
      ensures r.Success? <==> AsciiArtSheet.ParseSheet(content).Success?
      ensures r.Failure? ==> r.error == AsciiArtSheet.ParseSheet(content).error
      ensures r.Success? ==>
        && fresh(r.value) && r.value.Valid()
        && r.value.sheet == AsciiArtSheet.ParseSheet(content).value
        && r.value.currentFrame == 0 && r.value.frameTimer == 0.0 && r.value.fps == fps
    {
      var parsed := AsciiArtSheet.FromString(content);
      if parsed.Failure? {
        return Failure(parsed.error);
      }
      var player := new Player.FromSheet(parsed.value, fps);
      return Success(player);
    }

    /** update: the playback moves as Updated says; the sheet and the rate stay. */
    method Update(deltaTime: real)
      requires Valid()
      modifies this
      ensures Valid() && sheet == old(sheet) && fps == old(fps)
      ensures Position() == Updated(|sheet.frames|, old(Position()), fps, deltaTime)
    {
      if |sheet.frames| > 1 {
        frameTimer := frameTimer + deltaTime;
        if fps != 0.0 && frameTimer >= 1.0 / fps {
          frameTimer := frameTimer - 1.0 / fps;
          currentFrame := (currentFrame + 1) % |sheet.frames|;
        }
      }
    }

    /** current_frame: the text of the frame on show, always one of the sheet's frames. */
    function CurrentFrame(): (r: string)
      reads this
      requires Valid()
      ensures r in sheet.frames
    {
      sheet.frames[currentFrame]
    }
  }
}
