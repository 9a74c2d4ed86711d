/**
 * The decorative side of navigation, as entries of an effect log: which
 * particle, confetti, heart or haptic call the page issues, and on which
 * side a slide is placed when it enters or leaves.  What the calls draw is
 * not modelled; only that and in what order they are issued.
 */
module Effects {
  import opened Deck

  /** Where a slide is translated to: translate3d(-100%) or translate3d(100%). */
  datatype Side = LeftSide | RightSide

  datatype Effect =
    | RandomSparkles            // createRandomSparkles
    | RandomHearts              // createRandomHearts
    | FloatingBalloons          // createFloatingBalloons
    | MemorySparkles            // createMemorySparkles
    | Confetti(count: nat)      // showConfettiExplosion(count)
    | HeartBurst                // createHeartBurst
    | Vibrate(pattern: seq<nat>)  // navigator.vibrate(pattern)
    | SlideEnters(from: Side)   // incoming slide placed on this side before it moves in
    | SlideLeaves(to: Side)     // outgoing slide moved off to this side

  /** The choreography triggerSlideEffects runs 300 ms after a slide transition starts. */
  function SlideEffectsFor(slide: int): (r: seq<Effect>)
    ensures r != [] <==> 1 <= slide < TotalSlides
    ensures slide == TotalSlides - 1 ==> Confetti(50) in r && HeartBurst in r
  {
    match slide
    case 1 => [RandomSparkles]
    case 2 => [FloatingBalloons]
    case 3 => [MemorySparkles]
    case 4 => [Confetti(50), HeartBurst]
    case _ => []
  }

  /** Every destination slide that has a choreography has its own one. */
  lemma SlideEffectsDistinct(s: int, t: int)
    requires 1 <= s < TotalSlides && 1 <= t < TotalSlides && s != t
    ensures SlideEffectsFor(s) != SlideEffectsFor(t)
  {
  }

  /** The vibration pattern of the grand finale, in milliseconds. */
  const FinalePattern: seq<nat> := [100, 50, 100, 50, 200]

  /**
   * Wave `k` of the grand finale; wave 0 runs at once, waves 1 to 3 at
   * 500, 1000 and 1500 ms.
   */
  function FinaleWaveEffects(k: nat): (r: seq<Effect>)
    ensures r != [] <==> k <= 3
  {
    match k
    case 0 => [Confetti(100), HeartBurst]
    case 1 => [Confetti(50), RandomSparkles]
    case 2 => [Confetti(50), RandomHearts]
    case 3 => [HeartBurst]
    case _ => []
  }

  /** What a double tap draws: createDoubleTapEffect. */
  const DoubleTapEffects: seq<Effect> := [Confetti(30), HeartBurst, RandomSparkles]

  /** The side the incoming slide starts on: the right when moving forward, else the left. */
  function EntrySide(from: int, to: int): (r: Side)
    ensures from < to ==> r == RightSide
    ensures to <= from ==> r == LeftSide
  {
    if to > from then RightSide else LeftSide
  }

  /**
   * The side the outgoing slide is sent to, as the animation-frame callback
   * computes it: by comparing the target with the page's current slide when
   * the callback runs.
   */
  function ExitSideAsWritten(to: int, currentWhenFrameRuns: int): (r: Side)
    ensures to <= currentWhenFrameRuns ==> r == RightSide
    ensures currentWhenFrameRuns < to ==> r == LeftSide
  {
    if to > currentWhenFrameRuns then LeftSide else RightSide
  }

  /** The side the outgoing slide should be sent to: away from where the incoming one enters. */
  function ExitSide(from: int, to: int): (r: Side)
    ensures from != to ==> r != EntrySide(from, to)
  {
    if to > from then LeftSide else RightSide
  }

  /**
   * By the time the animation frame runs, the current slide already is the
   * target, so the written comparison always sends the outgoing slide to the
   * right: on a forward transition both slides sit on the right side and
   * cross each other.  Example: from slide 0 to slide 1.
   */
  lemma ExitSideAsWrittenCrossesForward(from: int, to: int)
    requires from < to
    ensures ExitSideAsWritten(to, to) == RightSide == EntrySide(from, to)
    ensures ExitSideAsWritten(to, to) != ExitSide(from, to)
  {
  }

  /** Backward transitions are unaffected: there both computations agree. */
  lemma ExitSideAsWrittenAgreesBackward(from: int, to: int)
    requires to < from
    ensures ExitSideAsWritten(to, to) == ExitSide(from, to)
  {
  }
}
