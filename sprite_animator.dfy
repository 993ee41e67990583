// The sprite animator: a playback state machine that advances a timer once
// per engine tick, moves at most one frame forward per tick, and at the last
// frame loops, or stops and fires its completion callback.

module Animator {
  import opened Animation

  /** Identity of a completion callback; its body is not modelled. */
  type CallbackId = nat

  datatype Option<T> = None | Some(value: T)

  /** What `onComplete?.Invoke()` appends to the log of fired callbacks. */
  function Calls(callback: Option<CallbackId>): (r: seq<CallbackId>)
  {
    match callback
    case None => []
    case Some(id) => [id]
  }

  /** The animator's playback state, without the animation it plays and
      without the time scale. `displayed` is the renderer's sprite and
      `fired` the callbacks invoked so far, oldest first. */
  datatype AnimatorState = AnimatorState(
    playing: bool,
    frameIndex: int,
    timer: real,
    onComplete: Option<CallbackId>,
    displayed: SpriteId,
    fired: seq<CallbackId>)

  /** While playing, the index is in range; once stopped, index and timer
      are back at zero. */
  predicate Consistent(st: AnimatorState, frames: seq<Frame>)
  {
    if st.playing then 0 <= st.frameIndex < |frames|
    else st.frameIndex == 0 && st.timer == 0.0
  }

  /** The renderer shows the sprite of the current frame. */
  predicate Showing(st: AnimatorState, frames: seq<Frame>)
    requires Consistent(st, frames) && st.playing
  {
    st.displayed == frames[st.frameIndex].sprite
  }

  /** The timer, advanced by `elapsed`, has reached the current frame's duration. */
  predicate Boundary(st: AnimatorState, clip: Clip, elapsed: real)
    requires Consistent(st, clip.frames)
  {
    st.playing && st.timer + elapsed >= clip.frames[st.frameIndex].duration
  }

  /** The current frame is the last one. */
  predicate OnLastFrame(st: AnimatorState, clip: Clip)
  {
    st.frameIndex + 1 >= |clip.frames|
  }

  /** One engine tick, with `elapsed` the tick's delta already multiplied by
      the time scale. */
  function Tick(st: AnimatorState, clip: Clip, elapsed: real): (r: AnimatorState)
    requires Consistent(st, clip.frames)
    ensures Consistent(r, clip.frames)
    ensures r.onComplete == st.onComplete
    ensures r.playing ==> st.playing
    ensures !st.playing ==> r == st
    // inside the current frame only the timer moves
    ensures st.playing && !Boundary(st, clip, elapsed) ==> r == st.(timer := st.timer + elapsed)
    // at most one frame forward per tick, however large `elapsed` is
    ensures r.frameIndex == st.frameIndex || r.frameIndex == st.frameIndex + 1 || r.frameIndex == 0
    ensures r.frameIndex == st.frameIndex + 1 <==> Boundary(st, clip, elapsed) && !OnLastFrame(st, clip)
    ensures Boundary(st, clip, elapsed) ==> r.timer == 0.0
    // a frame change while playing shows the new frame's sprite
    ensures Boundary(st, clip, elapsed) && r.playing ==> Showing(r, clip.frames)
    // a looping clip wraps to the first frame and keeps playing
    ensures Boundary(st, clip, elapsed) && OnLastFrame(st, clip) && clip.looping ==>
              r.playing && r.frameIndex == 0
    // playback stops exactly at the boundary of the last frame of a non-looping clip
    ensures st.playing && !r.playing <==> Boundary(st, clip, elapsed) && OnLastFrame(st, clip) && !clip.looping
    ensures st.playing && !r.playing ==>
              r.displayed == if clip.showFirstFrameAtEnd then clip.frames[0].sprite else st.displayed
    // the callback fires once, exactly when playback stops
    ensures r.fired == st.fired + if st.playing && !r.playing then Calls(st.onComplete) else []
  {
    if !st.playing then st
    else
      var t := st.timer + elapsed;
      var i := st.frameIndex;
      if t < clip.frames[i].duration then
        st.(timer := t)
      else if i + 1 >= |clip.frames| then
        if clip.looping then
          st.(frameIndex := 0, timer := 0.0, displayed := clip.frames[0].sprite)
        else
          st.(playing := false, frameIndex := 0, timer := 0.0,
              displayed := if clip.showFirstFrameAtEnd then clip.frames[0].sprite else st.displayed,
              fired := st.fired + Calls(st.onComplete))
      else
        st.(frameIndex := i + 1, timer := 0.0, displayed := clip.frames[i + 1].sprite)
  }

  /** A sequence of ticks, each given by its scaled delta. */
  function Run(st: AnimatorState, clip: Clip, deltas: seq<real>): (r: AnimatorState)
    requires Consistent(st, clip.frames)
    ensures Consistent(r, clip.frames)
    ensures r.onComplete == st.onComplete
    ensures r.playing ==> st.playing
    ensures !st.playing ==> r == st
    // however many ticks, the callback fires at most once: when playback ends
    ensures r.fired == st.fired + if st.playing && !r.playing then Calls(st.onComplete) else []
    decreases |deltas|
  {
    if deltas == [] then st else Run(Tick(st, clip, deltas[0]), clip, deltas[1..])
  }

  /** A looping clip never stops and never fires its callback. */
  lemma {:induction false} LoopingNeverStops(st: AnimatorState, clip: Clip, deltas: seq<real>)
    requires clip.looping
    requires Consistent(st, clip.frames)
    requires st.playing
    ensures Run(st, clip, deltas).playing
    ensures Run(st, clip, deltas).fired == st.fired
    decreases |deltas|
  {
    if deltas != [] {
      LoopingNeverStops(Tick(st, clip, deltas[0]), clip, deltas[1..]);
    }
  }

  /** With a zero scaled delta (time scale 0), a frame that has not yet run
      out is never left: the state does not change at all. */
  lemma {:induction false} PausedNeverAdvances(st: AnimatorState, clip: Clip, deltas: seq<real>)
    requires Consistent(st, clip.frames)
    requires st.playing ==> st.timer < clip.frames[st.frameIndex].duration
    requires forall i :: 0 <= i < |deltas| ==> deltas[i] == 0.0
    ensures Run(st, clip, deltas) == st
    decreases |deltas|
  {
    if deltas != [] {
      assert Tick(st, clip, deltas[0]) == st;
      PausedNeverAdvances(st, clip, deltas[1..]);
    }
  }

  /** Played from frame k with ticks each at least as long as the frame they
      fall in, a non-looping clip stops after exactly one tick per remaining
      frame, fires its callback once, and leaves the first frame shown when
      `showFirstFrameAtEnd` is set, the last frame otherwise. */
  lemma {:induction false} PlaysThroughOnce(st: AnimatorState, clip: Clip, deltas: seq<real>)
    requires !clip.looping
    requires Consistent(st, clip.frames)
    requires st.playing && 0.0 <= st.timer && Showing(st, clip.frames)
    requires |deltas| == |clip.frames| - st.frameIndex
    requires forall i :: 0 <= i < |deltas| ==> deltas[i] >= clip.frames[st.frameIndex + i].duration
    ensures Run(st, clip, deltas) == st.(
              playing := false, frameIndex := 0, timer := 0.0,
              displayed := if clip.showFirstFrameAtEnd then clip.frames[0].sprite
                           else clip.frames[|clip.frames| - 1].sprite,
              fired := st.fired + Calls(st.onComplete))
    ensures forall j :: 0 <= j < |deltas| ==> Run(st, clip, deltas[..j]).playing
    decreases |deltas|
  {
    var next := Tick(st, clip, deltas[0]);
    assert deltas[..0] == [];
    if |deltas| == 1 {
      assert Run(next, clip, deltas[1..]) == next;
    } else {
      assert next.frameIndex == st.frameIndex + 1 && next.playing && next.timer == 0.0;
      assert forall i :: 0 <= i < |deltas| - 1 ==>
        deltas[1..][i] >= clip.frames[next.frameIndex + i].duration by {
        forall i | 0 <= i < |deltas| - 1
          ensures deltas[1..][i] >= clip.frames[next.frameIndex + i].duration
        {
          assert deltas[1..][i] == deltas[i + 1];
        }
      }
      PlaysThroughOnce(next, clip, deltas[1..]);
      forall j | 1 <= j < |deltas| ensures Run(st, clip, deltas[..j]).playing {
        assert deltas[..j][0] == deltas[0] && deltas[..j][1..] == deltas[1..][..j - 1];
      }
    }
  }

  /** The frames' durations, in order. */
  function Durations(frames: seq<Frame>): (r: seq<real>)
  {
    seq(|frames|, i requires 0 <= i < |frames| => frames[i].duration)
  }

  /** The sum of a sequence of tick lengths. */
  function SumReals(s: seq<real>): (r: real)
  {
    if s == [] then 0.0 else s[0] + SumReals(s[1..])
  }

  /** Ticks of exactly the frames' durations add up to the frames' total. */
  lemma {:induction false} DurationsAddUp(frames: seq<Frame>)
    ensures SumReals(Durations(frames)) == Sum(frames)
  {
    if frames != [] {
      assert Durations(frames)[1..] == Durations(frames[1..]);
      DurationsAddUp(frames[1..]);
    }
  }

  /** Started at the first frame and ticked once per frame by exactly that
      frame's duration, so that the ticks add up to the clip's total
      duration, a non-looping clip ends on the last tick and has fired its
      callback once. */
  lemma PlaysThroughInTotalDuration(st: AnimatorState, clip: Clip)
    requires !clip.looping && clip.frames != []
    requires st.playing && st.frameIndex == 0 && st.timer == 0.0
    requires st.displayed == clip.frames[0].sprite
    ensures SumReals(Durations(clip.frames)) == Sum(clip.frames)
    ensures !Run(st, clip, Durations(clip.frames)).playing
    ensures Run(st, clip, Durations(clip.frames)).fired == st.fired + Calls(st.onComplete)
  {
    DurationsAddUp(clip.frames);
    PlaysThroughOnce(st, clip, Durations(clip.frames));
  }

  /** There is no catch-up: one tick as long as the whole of a two-frame
      clip only moves to the second frame, and playback goes on. */
  lemma NoCatchUp(st: AnimatorState)
    requires st.playing && st.frameIndex == 0 && st.timer == 0.0
    ensures var clip := Clip([Frame(1, 1.0), Frame(2, 1.0)], false, false);
            var r := Run(st, clip, [2.0]);
            r.playing && r.frameIndex == 1 && r.displayed == 2 && r.fired == st.fired
  {
  }

  /** The animator component. The renderer it writes to is the field
      `displayedSprite`; the public getters TimeScale, Playing and
      CurrentAnimation are the fields timeScale, playing and currentAnimation. */
  class SpriteAnimator {
    var timeScale: real
    var playing: bool
    var frameIndex: int
    var timer: real
    var currentAnimation: SpriteAnimation?
    var onComplete: Option<CallbackId>
    var displayedSprite: SpriteId
    ghost var fired: seq<CallbackId>

    ghost function State(): (st: AnimatorState)
      reads this
    {
      AnimatorState(playing, frameIndex, timer, onComplete, displayedSprite, fired)
    }

    /** The frames of the current animation, none when there is none. */
    function Frames(): (frames: seq<Frame>)
      reads this, currentAnimation
    {
      if currentAnimation == null then [] else currentAnimation.frames
    }

    ghost predicate Valid()
      reads this, currentAnimation
    {
      (playing ==> currentAnimation != null) && Consistent(State(), Frames())
    }

    constructor (rendererSprite: SpriteId)
      ensures Valid()
      ensures timeScale == 1.0 && currentAnimation == null
      ensures State() == AnimatorState(false, 0, 0.0, None, rendererSprite, [])
    {
      timeScale := 1.0;
      playing := false;
      frameIndex := 0;
      timer := 0.0;
      currentAnimation := null;
      onComplete := None;
      displayedSprite := rendererSprite;
      fired := [];
    }

    /** The TimeScale setter: changes the time scale and nothing else. */
    method SetTimeScale(scale: real)
      requires Valid()
      modifies this
      ensures Valid()
      ensures timeScale == scale
      ensures State() == old(State()) && currentAnimation == old(currentAnimation)
    {
      timeScale := scale;
    }

    /** Shows frame `index` of the current animation and restarts the timer. */
    method ShowFrameAtIndex(index: int)
      requires currentAnimation != null && 0 <= index < |currentAnimation.frames|
      modifies this
      ensures currentAnimation == old(currentAnimation) && timeScale == old(timeScale)
      ensures frameIndex == index && timer == 0.0
      ensures displayedSprite == currentAnimation.frames[index].sprite
      ensures playing == old(playing) && onComplete == old(onComplete) && fired == old(fired)
    {
      frameIndex := index;
      timer := 0.0;
      displayedSprite := currentAnimation.frames[frameIndex].sprite;
    }

    /** Stops playback; keeps the animation, the callback and the sprite shown. */
    method Stop()
      modifies this
      ensures Valid()
      ensures !playing && frameIndex == 0 && timer == 0.0
      ensures onComplete == old(onComplete) && displayedSprite == old(displayedSprite) && fired == old(fired)
      ensures currentAnimation == old(currentAnimation) && timeScale == old(timeScale)
    {
      playing := false;
      frameIndex := 0;
      timer := 0.0;
    }

    /** Starts `animation` at `startFrameIndex`. Nothing happens for no
        animation, or for the current animation unless forced; otherwise a
        playback still running has its callback fired before the new one is
        installed. */
    method Play(animation: SpriteAnimation?, startFrameIndex: int := 0, force: bool := false,
                callback: Option<CallbackId> := None)
      requires Valid()
      requires animation != null && (animation != currentAnimation || force) ==>
                 0 <= startFrameIndex < |animation.frames|
      modifies this
      ensures Valid()
      ensures timeScale == old(timeScale)
      ensures animation == null || (animation == old(currentAnimation) && !force) ==> unchanged(this)
      ensures animation != null && (animation != old(currentAnimation) || force) ==>
                && currentAnimation == animation
                && State() == AnimatorState(
                     true, startFrameIndex, 0.0, callback,
                     animation.frames[startFrameIndex].sprite,
                     old(fired) + if old(playing) then Calls(old(onComplete)) else [])
    {
      if animation == null {
        return;
      }
      if animation == currentAnimation && !force {
        return;
      }
      if playing && onComplete.Some? {
        fired := fired + [onComplete.value];
      }
      currentAnimation := animation;
      onComplete := callback;
      ShowFrameAtIndex(startFrameIndex);
      playing := true;
    }

    /** One engine tick of `deltaTime` seconds. */
    method Update(deltaTime: real)
      requires Valid()
      modifies this
      ensures Valid()
      ensures currentAnimation == old(currentAnimation) && timeScale == old(timeScale)
      ensures old(!playing || currentAnimation == null) ==> unchanged(this)
      ensures old(playing) ==>
                State() == Tick(old(State()), currentAnimation.Contents(), deltaTime * timeScale)
    {
      if !playing || currentAnimation == null {
        return;
      }
      ghost var before := State();
      ghost var clip := currentAnimation.Contents();
      timer := timer + deltaTime * timeScale;
      if timer >= currentAnimation.frames[frameIndex].duration {
        if frameIndex + 1 >= |currentAnimation.frames| {
          if currentAnimation.looping {
            ShowFrameAtIndex(0);
          } else if currentAnimation.showFirstFrameAtEnd {
            ShowFrameAtIndex(0);
            Stop();
            if onComplete.Some? {
              fired := fired + [onComplete.value];
            }
          } else {
            Stop();
            if onComplete.Some? {
              fired := fired + [onComplete.value];
            }
          }
        } else {
          ShowFrameAtIndex(frameIndex + 1);
        }
      }
      assert State() == Tick(before, clip, deltaTime * timeScale);
    }
  }

  /** Two one-second frames, not looping, first frame shown at the end. */
  method ShowFirstFrameAtEndScenario()
  {
    var animation := new SpriteAnimation([Frame(1, 1.0), Frame(2, 1.0)], false, true);
    var animator := new SpriteAnimator(0);
    animator.Play(animation, callback := Some(7));
    assert animator.displayedSprite == 1;
    animator.Update(1.0);
    assert animator.displayedSprite == 2 && animator.playing;
    animator.Update(1.0);
    assert animator.displayedSprite == 1 && !animator.playing && animator.fired == [7];
  }

  /** A frame's sprite replaced in the public frame list while it plays:
      playback goes on, and the renderer keeps the sprite it was given. */
  method SpriteReplacedWhilePlayingScenario()
  {
    var animation := new SpriteAnimation([Frame(1, 1.0), Frame(2, 1.0)], false, false);
    var animator := new SpriteAnimator(0);
    animator.Play(animation);
    animation.frames := [Frame(9, 1.0), Frame(2, 1.0)];
    animator.Update(0.5);
    assert animator.playing && animator.frameIndex == 0 && animator.displayedSprite == 1;
  }

  /** The same two frames, looping: wraps to the first and keeps playing. */
  method LoopingScenario()
  {
    var animation := new SpriteAnimation([Frame(1, 1.0), Frame(2, 1.0)], true, false);
    var animator := new SpriteAnimator(0);
    animator.Play(animation, callback := Some(7));
    animator.Update(1.0);
    assert animator.displayedSprite == 2;
    animator.Update(1.0);
    assert animator.displayedSprite == 1 && animator.playing && animator.fired == [];
  }
}
