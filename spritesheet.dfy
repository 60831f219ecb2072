/**
 * The sprite animation of src/spritesheet.rs: the frame index an animator
 * shows after its clock advances, and the player's facing.
 */
module SpriteSheets {
  import opened Movement
  import opened Players
  import opened States

  /** How an animation runs through its frames; the default is Loop. */
  datatype AnimationStrategy = Loop | PingPong

  /** The frame selector of a sprite: only its index is modelled. */
  class TextureAtlas {
    var index: nat

    constructor (index: nat)
      ensures this.index == index
    {
      this.index := index;
    }
  }

  /** An animator: a frame range, a rate in frames per second, a strategy and a clock. */
  class SpriteSheetAnimator {
    var start: nat
    var end: nat
    var frameRate: real
    var strategy: AnimationStrategy
    var time: real

    /** An animator as the spawners build it: the clock starts at its default of zero. */
    constructor (start: nat, end: nat, frameRate: real, strategy: AnimationStrategy)
      ensures this.start == start && this.end == end
      ensures this.frameRate == frameRate && this.strategy == strategy
      ensures time == 0.0
    {
      this.start := start;
      this.end := end;
      this.frameRate := frameRate;
      this.strategy := strategy;
      this.time := 0.0;
    }

    /**
     * update_index: the clock advances by delta, the elapsed frame count is
     * the clock times the rate truncated to an unsigned integer, and the
     * atlas shows the frame the strategy selects for it. The frame count
     * 1 + end - start underflows or divides by zero unless start <= end,
     * so the source demands that of its callers.
     */
    method UpdateIndex(atlas: TextureAtlas, delta: real)
      requires start <= end
      modifies this`time, atlas`index
      ensures time == old(time) + delta
      ensures atlas.index == FrameIndex(strategy, FrameCount(time, frameRate), 1 + end - start)
      ensures atlas.index < 1 + end - start
    {
      time := time + delta;
      var t := FrameCount(time, frameRate);
      var len := 1 + end - start;
      var index: nat;
      match strategy {
        case PingPong =>
          if (t / len) % 2 == 0 {
            index := t % len;
          } else {
            index := len - 1 - t % len;
          }
        case Loop =>
          index := FrameCount(time, frameRate) % (1 + end - start);
      }
      atlas.index := index;
    }
  }

  /**
   * A float converted to an unsigned integer: truncated towards zero, with
   * every negative value saturating at zero.
   */
  function TruncToUsize(x: real): (n: nat)
    ensures x < 0.0 ==> n == 0
    ensures x >= 0.0 ==> n as real <= x < n as real + 1.0
  {
    if x < 0.0 then 0 else x.Floor
  }

  /** The number of whole frames a clock reading stands for at a frame rate, as the source truncates it. */
  function FrameCount(time: real, frameRate: real): (t: nat)
    ensures time * frameRate >= 0.0 ==> t as real <= time * frameRate < t as real + 1.0
    ensures time * frameRate < 0.0 ==> t == 0
  {
    TruncToUsize(time * frameRate)
  }

  /** The PingPong frame: forwards through even cycles, backwards through odd ones. */
  function PingPongIndex(t: nat, len: nat): (i: nat)
    requires len > 0
    ensures i < len
  {
    if (t / len) % 2 == 0 then t % len else len - 1 - t % len
  }

  /** The frame a strategy selects for an elapsed frame count: always one of the len frames. */
  function FrameIndex(strategy: AnimationStrategy, t: nat, len: nat): (i: nat)
    requires len > 0
    ensures i < len
  {
    match strategy
    case Loop => t % len
    case PingPong => PingPongIndex(t, len)
  }

  /** A positive multiple of b is at least b. */
  lemma {:induction false} MultipleAtLeast(a: nat, b: nat)
    requires a >= 1
    ensures a * b >= b
  {
    if a > 1 {
      MultipleAtLeast(a - 1, b);
      assert a * b == (a - 1) * b + b;
    }
  }

  /** Division with remainder has one answer. */
  lemma DivModUnique(t: nat, len: nat, q: nat, r: nat)
    requires len > 0 && r < len && t == q * len + r
    ensures t / len == q && t % len == r
  {
    var q', r' := t / len, t % len;
    assert t == q' * len + r';
    if q' < q {
      MultipleAtLeast(q - q', len);
      assert false;
    } else if q < q' {
      MultipleAtLeast(q' - q, len);
      assert false;
    }
  }

  /** Within one period of 2 * len the PingPong index runs up, then down. */
  lemma PingPongOnePeriod(t: nat, len: nat)
    requires len > 0 && t < 2 * len
    ensures t < len ==> PingPongIndex(t, len) == t
    ensures len <= t ==> PingPongIndex(t, len) == 2 * len - 1 - t
  {
    if t < len {
      DivModUnique(t, len, 0, t);
    } else {
      DivModUnique(t, len, 1, t - len);
    }
  }

  /** PingPong repeats every 2 * len frames. */
  lemma PingPongPeriod(t: nat, len: nat)
    requires len > 0
    ensures PingPongIndex(t + 2 * len, len) == PingPongIndex(t, len)
  {
    var q, r := t / len, t % len;
    DivModUnique(t + 2 * len, len, q + 2, r);
  }

  /** Within one period PingPong is symmetric: the way back mirrors the way there. */
  lemma PingPongMirror(t: nat, len: nat)
    requires len > 0 && t < 2 * len
    ensures PingPongIndex(t, len) == PingPongIndex(2 * len - 1 - t, len)
  {
    PingPongOnePeriod(t, len);
    PingPongOnePeriod(2 * len - 1 - t, len);
  }

  /**
   * Either strategy shows frame t during the first len frames: the frames
   * counted are 0 .. len - 1, not start .. end, so every one of them is
   * shown and none is offset by start.
   */
  lemma FirstPassShowsEachFrame(strategy: AnimationStrategy, t: nat, len: nat)
    requires t < len
    ensures FrameIndex(strategy, t, len) == t
  {
    DivModUnique(t, len, 0, t);
  }

  /**
   * The facing of the player's sprite for a heading: a rotation in degrees
   * and a horizontal mirror. Only Right mirrors, and only the vertical
   * headings rotate.
   */
  function Orientation(d: Directions): (r: (int, bool))
    ensures r.1 <==> d == Right
    ensures r.0 == 0 <==> d == Left || d == Right
    ensures d == Up ==> r.0 == 270
    ensures d == Down ==> r.0 == 90
    ensures 0 <= r.0 < 360
  {
    match d
    case Up => (270, false)
    case Down => (90, false)
    case Left => (0, false)
    case Right => (0, true)
  }

  /** Different headings face differently. */
  lemma OrientationInjective(d: Directions, e: Directions)
    requires Orientation(d) == Orientation(e)
    ensures d == e
  {
  }

  /** The rotation and mirror flag of the player's sprite. */
  class PlayerSprite {
    var rotationDegrees: int
    var flipX: bool

    constructor ()
      ensures rotationDegrees == 0 && !flipX
    {
      rotationDegrees := 0;
      flipX := false;
    }
  }

  /**
   * update_player: the sprite faces the current heading and the animator
   * advances by the frame's time.
   */
  method UpdatePlayer(dir: Direction, sprite: PlayerSprite, atlas: TextureAtlas, animator: SpriteSheetAnimator, dt: real)
    requires animator.start <= animator.end
    modifies sprite, atlas`index, animator`time
    ensures (sprite.rotationDegrees, sprite.flipX) == Orientation(dir.current)
    ensures animator.time == old(animator.time) + dt
    ensures atlas.index == FrameIndex(animator.strategy, FrameCount(animator.time, animator.frameRate),
                                      1 + animator.end - animator.start)
  {
    var (rot, flip) := Orientation(dir.current);
    sprite.rotationDegrees := rot;
    sprite.flipX := flip;
    animator.UpdateIndex(atlas, dt);
  }

  /** The animation system runs only while the player is Moving and the game is Running. */
  predicate AnimationRuns(playerState: PlayerState, gameState: GameState)
  {
    playerState == Moving && gameState == Running
  }

  /** The scheduled animation step: update_player when its run condition holds, nothing otherwise. */
  method AnimateIfRunning(playerState: PlayerState, gameState: GameState, dir: Direction, sprite: PlayerSprite,
                          atlas: TextureAtlas, animator: SpriteSheetAnimator, dt: real)
    requires animator.start <= animator.end
    modifies sprite, atlas`index, animator`time
    ensures !AnimationRuns(playerState, gameState) ==>
      && animator.time == old(animator.time) && atlas.index == old(atlas.index)
      && sprite.rotationDegrees == old(sprite.rotationDegrees) && sprite.flipX == old(sprite.flipX)
    ensures AnimationRuns(playerState, gameState) ==>
      && (sprite.rotationDegrees, sprite.flipX) == Orientation(dir.current)
      && animator.time == old(animator.time) + dt
      && atlas.index == FrameIndex(animator.strategy, FrameCount(animator.time, animator.frameRate),
                                   1 + animator.end - animator.start)
  {
    if playerState == Moving && gameState == Running {
      UpdatePlayer(dir, sprite, atlas, animator, dt);
    }
  }
}
