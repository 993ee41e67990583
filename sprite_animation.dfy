// A sprite animation asset: an ordered list of frames, each a sprite shown
// for a number of seconds, plus the two end-of-playback flags.

module Animation {

  /** Identity of a sprite asset; the engine's sprites are opaque here. */
  type SpriteId = nat

  /** One frame of an animation: the sprite to show and for how many seconds. */
  datatype Frame = Frame(sprite: SpriteId, duration: real)

  /** The values of an animation's fields that playback reads. */
  datatype Clip = Clip(frames: seq<Frame>, looping: bool, showFirstFrameAtEnd: bool)

  /** A total duration: a finite number of seconds, or positive infinity. */
  datatype TotalTime = Finite(seconds: real) | PositiveInfinity

  /** The sum of the frames' durations, first frame first. */
  function Sum(frames: seq<Frame>): (total: real)
  {
    if frames == [] then 0.0 else frames[0].duration + Sum(frames[1..])
  }

  /** The sum of two frame lists joined is the sum of their sums. */
  lemma {:induction false} SumConcat(a: seq<Frame>, b: seq<Frame>)
    ensures Sum(a + b) == Sum(a) + Sum(b)
  {
    if a != [] {
      assert (a + b)[1..] == a[1..] + b;
      SumConcat(a[1..], b);
    } else {
      assert a + b == b;
    }
  }

  /** Appending a frame adds exactly its duration to the sum. */
  lemma SumSnoc(frames: seq<Frame>, f: Frame)
    ensures Sum(frames + [f]) == Sum(frames) + f.duration
  {
    SumConcat(frames, [f]);
  }

  /** The sum sees only the durations: the frames' sprites do not matter. */
  lemma {:induction false} SumIgnoresSprites(a: seq<Frame>, b: seq<Frame>)
    requires |a| == |b|
    requires forall i :: 0 <= i < |a| ==> a[i].duration == b[i].duration
    ensures Sum(a) == Sum(b)
  {
    if a != [] {
      assert forall i :: 0 <= i < |a| - 1 ==> a[1..][i].duration == b[1..][i].duration by {
        forall i | 0 <= i < |a| - 1 ensures a[1..][i].duration == b[1..][i].duration {
          assert a[1..][i] == a[i + 1] && b[1..][i] == b[i + 1];
        }
      }
      SumIgnoresSprites(a[1..], b[1..]);
    }
  }

  /** A sprite animation asset. Players refer to it by identity. */
  class SpriteAnimation {
    var frames: seq<Frame>
    var looping: bool
    var showFirstFrameAtEnd: bool

    constructor (frames: seq<Frame>, looping: bool, showFirstFrameAtEnd: bool)
      ensures this.frames == frames
      ensures this.looping == looping
      ensures this.showFirstFrameAtEnd == showFirstFrameAtEnd
    {
      this.frames := frames;
      this.looping := looping;
      this.showFirstFrameAtEnd := showFirstFrameAtEnd;
    }

    /** The current values of the fields that playback reads. */
    function Contents(): (clip: Clip)
      reads this
    {
      Clip(frames, looping, showFirstFrameAtEnd)
    }

    /** Total duration: infinite when looping, otherwise the sum of the
        frames' durations. Reads the fields and changes nothing. */
    method TotalDuration() returns (total: TotalTime)
      ensures looping ==> total == PositiveInfinity
      ensures !looping ==> total == Finite(Sum(frames))
      ensures !looping && frames == [] ==> total == Finite(0.0)
    {
      total := if looping then PositiveInfinity else Finite(0.0);
      if !looping {
        for i := 0 to |frames|
          invariant total == Finite(Sum(frames[..i]))
        {
          SumSnoc(frames[..i], frames[i]);
          assert frames[..i + 1] == frames[..i] + [frames[i]];
          total := Finite(total.seconds + frames[i].duration);
        }
        assert frames[..|frames|] == frames;
      }
    }
  }
}
