/**
 * The remote control drawn when the channel changes (src/ui/remote.rs): a
 * seven-frame animation that rises and falls at 10 frames a second, and
 * that asks once, at its fourth frame, for the channel to be switched.
 */
module Remote {
  import opened Wrappers
  import AsciiArtPlayer

  datatype RemoteState = Idle | Animating

  /** One frame of the animation: its art and how many rows it is raised (negative is up). */
  datatype RemoteFrame = RemoteFrame(art: string, yOffset: int)

  const RemoteFrame0 := "╭───╮\n│:::│\n│:::│\n│ : │\n╰───╯"
  const RemoteFrame1 := "╭───╮\n│.::│\n│:::│\n│ : │\n╰───╯"
  const RemoteFrame2 := "╭───╮\n│*::│\n│:::│\n│ : │\n╰───╯"
  const RemoteFrame3 := "╭───╮\n│o::│\n│:::│\n│ : │\n╰───╯"
  const RemoteFrame4 := "╭───╮\n│:::│\n│:::│\n│ : │\n╰───╯"

  /** The frame at which the channel is switched. */
  const SwitchFrame: nat := 3

  /** The animation's frames, in order: up by one, two, held, down by one, back. */
  const RemoteFrames: seq<RemoteFrame> := [
    RemoteFrame(RemoteFrame0, 0),
    RemoteFrame(RemoteFrame1, -1),
    RemoteFrame(RemoteFrame2, -2),
    RemoteFrame(RemoteFrame3, -2),
    RemoteFrame(RemoteFrame4, -2),
    RemoteFrame(RemoteFrame0, -1),
    RemoteFrame(RemoteFrame0, 0)
  ]

  /** The animation's state as a value: frame, timer, whether it plays, its target and whether it asked for the switch. */
  datatype RemoteView = RemoteView(frame: nat, timer: real, playing: bool, target: Option<nat>, switched: bool)

  /**
   * What holds between calls for an animation of `frameCount` frames: the
   * frame is one of them; while playing there is a target; at rest the
   * animation is at frame 0 with no target and no switch asked; and the
   * switch is only ever asked from the switch frame on.
   */
  predicate Consistent(v: RemoteView, frameCount: nat)
  {
    && v.frame < frameCount
    && (v.playing ==> v.target.Some?)
    && (!v.playing ==> v.frame == 0 && v.target.None? && !v.switched)
    && (v.switched ==> v.frame >= SwitchFrame)
  }

  /** trigger: playing from the first frame towards `target`, nothing asked yet. */
  function Triggered(target: nat): (r: RemoteView)
    ensures forall n: nat :: n > 0 ==> Consistent(r, n)
  {
    RemoteView(0, 0.0, true, Some(target), false)
  }

  /**
   * update: at rest nothing changes. Playing, `delta` is added to the
   * timer; when it reaches a frame's duration that duration is taken off
   * and the next frame shown; past the last frame the animation comes to
   * rest (the timer keeps what is left over).
   */
  function UpdatedView(v: RemoteView, frameCount: nat, fps: real, delta: real): (r: RemoteView)
    ensures !v.playing ==> r == v
    ensures r.playing ==> r.target == v.target && r.switched == v.switched
    ensures r.playing ==> r.frame == v.frame || r.frame == v.frame + 1
    ensures r.frame != v.frame ==> AsciiArtPlayer.Due(v.timer + delta, fps)
    ensures Consistent(v, frameCount) ==> Consistent(r, frameCount)
  {
    if !v.playing then v
    else
      var t := v.timer + delta;
      if AsciiArtPlayer.Due(t, fps) then
        if v.frame + 1 >= frameCount then RemoteView(0, t - 1.0 / fps, false, None, false)
        else v.(frame := v.frame + 1, timer := t - 1.0 / fps)
      else v.(timer := t)
  }

  /**
   * should_switch_channel: the target, exactly once, when asked while
   * playing the switch frame; the asking is remembered. Otherwise nothing.
   */
  function SwitchAsked(v: RemoteView): (r: (RemoteView, Option<nat>))
    ensures r.1.Some? <==> v.playing && v.frame == SwitchFrame && !v.switched && v.target.Some?
    ensures r.1.Some? ==> r.1 == v.target && r.0 == v.(switched := true)
    ensures v.target.Some? && r.1.None? ==> r.0 == v
  {
    if v.playing && v.frame == SwitchFrame && !v.switched then (v.(switched := true), v.target)
    else (v, None)
  }

  /** The state after `k` updates of one frame's duration each. */
  function Stepped(v: RemoteView, frameCount: nat, fps: real, k: nat): RemoteView
    requires fps > 0.0
    decreases k
  {
    if k == 0 then v else Stepped(UpdatedView(v, frameCount, fps, 1.0 / fps), frameCount, fps, k - 1)
  }

  /**
   * Fed one frame's duration per update, a playing animation shows one
   * frame more each time with its timer at 0, and comes to rest on the
   * update that would go past the last frame.
   */
  lemma {:induction false} SteppedFrames(v: RemoteView, frameCount: nat, fps: real, k: nat)
    requires fps > 0.0 && v.playing && v.timer == 0.0 && v.frame < frameCount && v.frame + k <= frameCount
    decreases k
    ensures v.frame + k < frameCount ==> Stepped(v, frameCount, fps, k) == v.(frame := v.frame + k)
    ensures v.frame + k == frameCount ==> !Stepped(v, frameCount, fps, k).playing
  {
    if k > 0 {
      var w := UpdatedView(v, frameCount, fps, 1.0 / fps);
      assert AsciiArtPlayer.Due(v.timer + 1.0 / fps, fps);
      assert Stepped(v, frameCount, fps, k) == Stepped(w, frameCount, fps, k - 1);
      if v.frame + 1 >= frameCount {
        assert !w.playing;
        StaysAtRest(w, frameCount, fps, k - 1);
      } else {
        assert w == v.(frame := v.frame + 1);
        SteppedFrames(w, frameCount, fps, k - 1);
      }
    }
  }

  /** At rest, updates change nothing. */
  lemma {:induction false} StaysAtRest(v: RemoteView, frameCount: nat, fps: real, k: nat)
    requires fps > 0.0 && !v.playing
    decreases k
    ensures Stepped(v, frameCount, fps, k) == v
  {
    if k > 0 {
      StaysAtRest(UpdatedView(v, frameCount, fps, 1.0 / fps), frameCount, fps, k - 1);
    }
  }

  /** The source's scenario: triggered, then seven updates of 0.1 s at 10 fps, the animation has stopped. */
  lemma SevenUpdatesStop(target: nat)
    ensures !Stepped(Triggered(target), |RemoteFrames|, 10.0, 7).playing
  {
    assert |RemoteFrames| == 7;
    SteppedFrames(Triggered(target), 7, 10.0, 7);
  }

  /** What the animation can be asked to do after it is triggered. */
  datatype Op = Update(delta: real) | AskSwitch

  /** The answers to the switch questions among `ops`, in order. */
  function Answers(v: RemoteView, frameCount: nat, fps: real, ops: seq<Op>): seq<Option<nat>>
    decreases |ops|
  {
    if |ops| == 0 then []
    else match ops[0]
      case Update(delta) => Answers(UpdatedView(v, frameCount, fps, delta), frameCount, fps, ops[1..])
      case AskSwitch =>
        var (w, a) := SwitchAsked(v);
        [a] + Answers(w, frameCount, fps, ops[1..])
  }

  /** How many of the answers name a channel. */
  function CountSome(answers: seq<Option<nat>>): nat
    decreases |answers|
  {
    if |answers| == 0 then 0
    else (if answers[0].Some? then 1 else 0) + CountSome(answers[1..])
  }

  /**
   * Whatever the updates and questions, one animation asks for the switch
   * at most once (and not at all once asked, or at rest), and always for
   * its own target.
   */
  lemma {:induction false} SwitchAtMostOnce(v: RemoteView, frameCount: nat, fps: real, ops: seq<Op>)
    requires Consistent(v, frameCount)
    decreases |ops|
    ensures CountSome(Answers(v, frameCount, fps, ops)) <= (if v.playing && !v.switched then 1 else 0)
    ensures forall a :: a in Answers(v, frameCount, fps, ops) && a.Some? ==> a == v.target
  {
    if |ops| > 0 {
      match ops[0]
      case Update(delta) =>
        var w := UpdatedView(v, frameCount, fps, delta);
        SwitchAtMostOnce(w, frameCount, fps, ops[1..]);
      case AskSwitch =>
        var (w, a) := SwitchAsked(v);
        SwitchAtMostOnce(w, frameCount, fps, ops[1..]);
        var rest := Answers(w, frameCount, fps, ops[1..]);
        assert Answers(v, frameCount, fps, ops) == [a] + rest;
        assert ([a] + rest)[1..] == rest;
    }
  }

  /**
   * The source's switch-timing scenario: triggered towards channel 1, the
   * three questions asked before each of three updates of 0.1 s get no
   * answer, the next gets channel 1, and the one after gets none.
   */
  lemma SwitchTiming()
    ensures var ops := [AskSwitch, Update(0.1), AskSwitch, Update(0.1), AskSwitch, Update(0.1), AskSwitch, AskSwitch];
      Answers(Triggered(1), |RemoteFrames|, 10.0, ops) == [None, None, None, Some(1), None]
  {
    assert |RemoteFrames| == 7;
    var v0 := Triggered(1);
    var v1 := UpdatedView(v0, 7, 10.0, 0.1);
    assert v1 == v0.(frame := 1);
    var v2 := UpdatedView(v1, 7, 10.0, 0.1);
    assert v2 == v0.(frame := 2);
    var v3 := UpdatedView(v2, 7, 10.0, 0.1);
    assert v3 == v0.(frame := 3);
    var ops := [AskSwitch, Update(0.1), AskSwitch, Update(0.1), AskSwitch, Update(0.1), AskSwitch, AskSwitch];
    assert ops[1..][1..][1..][1..][1..][1..] == [AskSwitch, AskSwitch];
    assert Answers(v3, 7, 10.0, [AskSwitch, AskSwitch]) == [Some(1), None];
  }

  class RemoteAnimation {
    var frames: seq<RemoteFrame>
    var currentFrame: nat
    var frameTimer: real
    var fps: real
    var isPlaying: bool
    var targetChannel: Option<nat>
    var channelSwitched: bool
    var state: RemoteState

    /** The animation's state as a value. */
    function View(): RemoteView
      reads this
    {
      RemoteView(currentFrame, frameTimer, isPlaying, targetChannel, channelSwitched)
    }

    /** The state agrees with whether it plays, and the view is consistent. */
    predicate Valid()
      reads this
    {
      && (state == Animating <==> isPlaying)
      && Consistent(View(), |frames|)
    }

    /** new: the seven frames at 10 fps, at rest. */
    constructor ()
      ensures Valid() && frames == RemoteFrames && fps == 10.0
      ensures View() == RemoteView(0, 0.0, false, None, false) && state == Idle
    {
      frames := RemoteFrames;
      currentFrame := 0;
      frameTimer := 0.0;
      fps := 10.0;
      isPlaying := false;
      targetChannel := None;
      channelSwitched := false;
      state := Idle;
    }

    /** trigger: starts, or starts over, towards `targetChannel`. */
    method Trigger(targetChannel: nat)
      requires Valid()
      modifies this
      ensures Valid() && frames == old(frames) && fps == old(fps)
      ensures View() == Triggered(targetChannel)
    {
      state := Animating;
      isPlaying := true;
      currentFrame := 0;
      frameTimer := 0.0;
      this.targetChannel := Some(targetChannel);
      channelSwitched := false;
    }

    /** update: the view moves as UpdatedView says. */
    method Update(deltaTime: real)
      requires Valid()
      modifies this
      ensures Valid() && frames == old(frames) && fps == old(fps)
      ensures View() == UpdatedView(old(View()), |frames|, fps, deltaTime)
    {
      if !isPlaying {
        return;
      }
      frameTimer := frameTimer + deltaTime;
      if fps != 0.0 && frameTimer >= 1.0 / fps {
        frameTimer := frameTimer - 1.0 / fps;
        currentFrame := currentFrame + 1;
        if currentFrame >= |frames| {
          isPlaying := false;
          currentFrame := 0;
          targetChannel := None;
          channelSwitched := false;
          state := Idle;
        }
      }
    }

    /** is_playing: exactly while the animation is in its animating state. */
    function IsPlaying(): (r: bool)
      reads this
      ensures Valid() ==> (r <==> state == Animating)
    {
      isPlaying
    }

    /** get_frame: the art and offset of the frame on show while playing; nothing at rest. */
    function GetFrame(): (r: Option<(string, int)>)
      reads this
      ensures r.Some? ==> isPlaying && currentFrame < |frames|
      ensures r.Some? ==> r.value == (frames[currentFrame].art, frames[currentFrame].yOffset)
      ensures Valid() ==> (r.None? <==> !isPlaying)
    {
      if !isPlaying then None
      else if currentFrame < |frames| then Some((frames[currentFrame].art, frames[currentFrame].yOffset))
      else None
    }

    /** should_switch_channel: answers and remembers as SwitchAsked says. */
    method ShouldSwitchChannel() returns (r: Option<nat>)
      requires Valid()
      modifies this
      ensures Valid() && frames == old(frames) && fps == old(fps) && state == old(state)
      ensures (View(), r) == SwitchAsked(old(View()))
    {
      if isPlaying && currentFrame == SwitchFrame && !channelSwitched {
        channelSwitched := true;
        r := targetChannel;
      } else {
        r := None;
      }
    }
  }
}
