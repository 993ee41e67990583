# Sprite animator, modelled in Dafny

A model of a Unity sprite-animation component. It has two parts:

- **`Animation`** (`sprite_animation.dfy`) models the asset. A `SpriteAnimation` holds an ordered list of `Frame`s. Each frame is a sprite and the number of seconds it is shown. The asset also has the `looping` and `showFirstFrameAtEnd` flags. It has one derived value, `TotalDuration`: positive infinity for a looping animation, otherwise the sum of the frame durations. The loop that computes this sum is proved against the recursive `Sum` function.
- **`Animator`** (`sprite_animator.dfy`) models the player. `SpriteAnimator` is a class whose fields are the component's own: `playing`, `frameIndex`, `timer`, `currentAnimation`, `onComplete` and `timeScale`.
  - The renderer's sprite is the field `displayedSprite`.
  - Invoking the completion callback appends its id to the ghost log `fired`. The function `Calls` encodes `m_OnComplete?.Invoke()` (`src/SpriteAnimator.cs:122`, `:129`, `:156`): it yields nothing when no callback is set and the callback's id once when one is set.
  - The public getters `TimeScale`, `Playing` and `CurrentAnimation` correspond to the fields of the same names.
  - `Play`, `Stop`, `Update` and `ShowFrameAtIndex` are methods with `modifies this`. Each one states the complete new state.
  - `Update` is specified by the pure transition function `Tick`, applied to a value snapshot of the state (`AnimatorState`). `Run` applies `Tick` across a sequence of ticks. The lemmas about `Run` cover playback over several ticks.

The class invariant `Valid()` has two parts. While the animator is playing, there is an animation and the frame index is within its frames. While it is stopped, the frame index and the timer are both zero. The constructor establishes the invariant and every public method preserves it. The private `ShowFrameAtIndex` is called in the middle of `Play`, where the invariant does not hold yet, so it neither requires nor ensures it.

The invariant does not say that the renderer shows the current frame's sprite: the frame list is public, and a frame's sprite can be replaced during playback without disturbing the source. `Tick` instead states that every frame change shows the new frame's sprite, and the lemmas that need it take it as a hypothesis (`Showing`). The client `SpriteReplacedWhilePlayingScenario` replaces a sprite during playback and goes on ticking.

Two accesses in the source are unguarded. `Play` indexes the frame list at `startFrameIndex` (`src/SpriteAnimator.cs:164`, `:188`). `Update` indexes the current frame and, at the end of the list, frame 0 (`:108`, `:114`, `:118`). The model turns these into preconditions:

- `Play` requires `0 <= startFrameIndex < |frames|`, but only on the path that actually shows a frame.
- `Update` requires `Valid()`.

So an empty frame list can never be started.

`Play` returns early for the current animation whenever `force` is false. It never checks `m_Playing` (`src/SpriteAnimator.cs:152`), so `Play(a)` with `a` the current animation changes nothing, even after playback has stopped. `Play`'s contract states this.

## Model

| member | source | states |
|---|---|---|
| `Animation.SpriteAnimation.constructor` | src/SpriteAnimation.cs:34-41 | An asset holds exactly the frames and the two flags it was authored with. |
| `Animation.SpriteAnimation.TotalDuration` | src/SpriteAnimation.cs:48-61 | Looping gives positive infinity, whatever the frames are. Otherwise the result is the sum of all frame durations, and an empty frame list gives 0. Nothing else enters the result: not the sprites, not `showFirstFrameAtEnd`. The method has no modifies clause, so reading it changes no field. |
| `Animation.SumConcat` | src/SpriteAnimation.cs:55-57 | The total of two frame lists joined together is the sum of their two totals. |
| `Animation.SumSnoc` | src/SpriteAnimation.cs:55-57 | Appending a frame of duration d to a non-looping animation increases its total by exactly d (the one-frame case of `SumConcat`). |
| `Animation.SumIgnoresSprites` | src/SpriteAnimation.cs:55-57 | Two frame lists with the same durations have the same total, whatever sprites they show. |
| `Animator.Tick` | src/SpriteAnimator.cs:99-138 | One tick preserves the invariant (index in range while playing, index and timer 0 when stopped), never replaces the callback and never starts playback. A stopped animator is unchanged. Within a frame only the timer moves. It advances at most one frame per tick, by exactly one if and only if the frame's duration is reached on a frame that is not the last. The timer resets to 0 at every boundary, and a frame change while playing shows the new frame's sprite. A looping clip wraps to frame 0 and keeps playing. Playback stops if and only if the last frame of a non-looping clip reaches its duration. On stopping, the frame shown becomes frame 0 when `showFirstFrameAtEnd` is set and otherwise stays the last frame. The callback fires once, exactly when playback stops. |
| `Animator.Run` | src/SpriteAnimator.cs:99-138 | Any number of ticks preserves the invariant and never starts a stopped animator. Over the whole run the callback fires at most once, and only if playback ended during the run. |
| `Animator.LoopingNeverStops` | src/SpriteAnimator.cs:110-115 | A looping animation keeps playing through any sequence of ticks and never fires its callback. |
| `Animator.PausedNeverAdvances` | src/SpriteAnimator.cs:104-108 | Ticks with a zero scaled delta (time scale 0) leave the state entirely unchanged, provided the current frame has not run out yet. |
| `Animator.PlaysThroughOnce` | src/SpriteAnimator.cs:108-135 | Start a non-looping animation at frame k, showing that frame's sprite, and give it ticks that are each at least as long as the frame they fall in. It is still playing after every tick before the last. After exactly one tick per remaining frame it is stopped at index 0 with timer 0 and has fired its callback once. It then shows frame 0 if `showFirstFrameAtEnd` is set, and the last frame otherwise. |
| `Animator.DurationsAddUp` | src/SpriteAnimation.cs:54-58 | Ticks of exactly the frames' durations add up to the frames' total, the non-looping `TotalDuration`. |
| `Animator.PlaysThroughInTotalDuration` | src/SpriteAnimator.cs:105-130 | Play a non-looping animation from frame 0 with one tick per frame, each tick exactly that frame's duration. The ticks add up to `Sum` of the frames, the non-looping total duration, and playback then ends stopped, with its callback fired exactly once. |
| `Animator.NoCatchUp` | src/SpriteAnimator.cs:108-135 | There is no catch-up loop: on two one-second frames, a single two-second tick only moves to the second frame, shows its sprite and keeps playing, with nothing fired. |
| `Animator.SpriteAnimator.constructor` | src/SpriteAnimator.cs:71-83 | A new animator is stopped at index 0 with timer 0, time scale 1, no animation, no callback and nothing fired. It shows the renderer's existing sprite. |
| `Animator.SpriteAnimator.SetTimeScale` | src/SpriteAnimator.cs:44-47 | Setting the time scale changes nothing else. |
| `Animator.SpriteAnimator.ShowFrameAtIndex` | src/SpriteAnimator.cs:184-189 | Sets the frame index, resets the timer to 0 and shows that frame's sprite. Playing state, callback, log and animation are unchanged. |
| `Animator.SpriteAnimator.Stop` | src/SpriteAnimator.cs:174-178 | Not playing, index 0 and timer 0. The animation, callback, displayed sprite, log and time scale are unchanged. |
| `Animator.SpriteAnimator.Play` | src/SpriteAnimator.cs:147-168 | A null animation changes nothing. The current animation without `force` changes nothing, whether or not it is playing. Any other call first fires the old callback once, if and only if the animator was playing and a callback was set. It then installs the new animation and callback and sets playing. The index becomes `startFrameIndex`, the timer 0, and the start frame's sprite is shown. |
| `Animator.SpriteAnimator.Update` | src/SpriteAnimator.cs:99-138 | A no-op when not playing or with no animation. Otherwise the new state is `Tick` of the old state with delta × time scale. The animation and the time scale are unchanged. |

The methods `ShowFirstFrameAtEndScenario`, `LoopingScenario` and `SpriteReplacedWhilePlayingScenario` are verified clients. They play a two-frame animation through the method contracts alone:

- Not looping, with the first frame shown at the end: it ends on the first sprite, stopped, with its callback fired once.
- Looping: it wraps to the first sprite, is still playing, and has fired nothing.
- A frame's sprite replaced during playback: the next tick keeps playing and the renderer keeps the sprite it was given.

## Left out

- Engine lifecycle: `Awake`, `GetComponent<SpriteRenderer>`, `RequireComponent`, and auto-play through `playOnAwake`/`DefaultAnimation` (`src/SpriteAnimator.cs:28-37`, `89-96`). These are host-engine calls. The constructor instead takes the renderer's initial sprite.
- `Time.deltaTime` is a parameter of `Update`.
- The `Renderer` getter and the renderer object are not modelled. Only the sprite written to the renderer is kept, as `displayedSprite`.
- The `title` field and the inspector and serialisation attributes are editor concerns.
- Floating point: durations, timer and time scale are `real`, and infinity is a case of `TotalTime`. Rounding, accumulation order, NaN and overflow are not modelled.
- Callback bodies and re-entrancy are not modelled, for example a callback that calls `Play` or `Stop` from inside `Update`. An invocation only appends the callback's id to a log.
- Unity's overloaded `==`/`Equals` on engine objects (a destroyed object comparing equal to null) is not modelled. Animations are compared by reference identity.
- The animation's fields are public and mutable. If the frame list is shortened while the animation plays so that the current index is out of range, the source fails when it next indexes the frames. The model excludes that case through `Valid()`. Replacing frames or their sprites without shortening the list is allowed.
- Animator.PausedNeverAdvances requires the current frame not to have run out. A frame of duration 0 (or less) still advances at time scale 0, because the source compares with `>=` (`src/SpriteAnimator.cs:108`).
