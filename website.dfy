/**
 * The page object of the birthday site: slide and quote navigation, the
 * transition lock, the music toggle and the input handlers.
 *
 * Time is not modelled.  Every continuation of the modelled navigation,
 * finale and melody that the page schedules with setTimeout or
 * requestAnimationFrame is appended to `pending`, and the event loop is the
 * method RunTask, which may fire any pending continuation (so whatever is
 * proved holds for every order the delays could produce).  Decorative calls
 * are appended to the log `effects`.  A DOM lookup inside a modelled handler
 * that decides its state change, and a browser facility that may be missing,
 * is a boolean parameter; the elements the page looks up only to register
 * its handlers are taken to exist.
 */
module Website {
  import opened Gestures
  import opened Deck
  import opened Effects

  /** A continuation the page has scheduled and that has not run yet. */
  datatype Task =
    | SlideFrame(from: int, to: int)  // requestAnimationFrame callback of a slide transition
    | TransitionCleanup               // 500 ms later: releases the transition lock
    | SlideEffects(slide: int)        // 300 ms: triggerSlideEffects' choreography
    | TransitionHearts                // 200 ms: second half of createTransitionEffect
    | FinaleWave(wave: nat)           // 500, 1000, 1500 ms: waves 1..3 of the grand finale
    | MusicLoop                       // the melody's self-rescheduling loop (musicTimeout)

  datatype Kind = TransitionKind | DecorKind | FinaleKind | MusicKind

  function KindOf(t: Task): Kind
  {
    match t
    case SlideFrame(_, _) => TransitionKind
    case TransitionCleanup => TransitionKind
    case SlideEffects(_) => DecorKind
    case TransitionHearts => DecorKind
    case FinaleWave(_) => FinaleKind
    case MusicLoop => MusicKind
  }

  /** The number of pending continuations of kind `k`. */
  function Tally(s: seq<Task>, k: Kind): nat
    decreases |s|
  {
    if s == [] then 0 else (if KindOf(s[0]) == k then 1 else 0) + Tally(s[1..], k)
  }

  lemma {:induction false} TallyAppend(a: seq<Task>, b: seq<Task>, k: Kind)
    ensures Tally(a + b, k) == Tally(a, k) + Tally(b, k)
    decreases |a|
  {
    if a == [] {
      assert a + b == b;
    } else {
      assert (a + b)[1..] == a[1..] + b;
      TallyAppend(a[1..], b, k);
    }
  }

  lemma TallyRemove(s: seq<Task>, i: nat, k: Kind)
    requires i < |s|
    ensures Tally(s[..i] + s[i + 1..], k) + (if KindOf(s[i]) == k then 1 else 0) == Tally(s, k)
  {
    assert s == s[..i] + ([s[i]] + s[i + 1..]);
    assert ([s[i]] + s[i + 1..])[1..] == s[i + 1..];
    TallyAppend(s[..i], [s[i]] + s[i + 1..], k);
    TallyAppend(s[..i], s[i + 1..], k);
  }

  lemma {:induction false} TallyCountsMember(s: seq<Task>, t: Task)
    requires t in s
    ensures Tally(s, KindOf(t)) >= 1
    decreases |s|
  {
    if s[0] != t {
      assert t in s[1..];
      TallyCountsMember(s[1..], t);
    }
  }

  /** What clearTimeout(musicTimeout) leaves pending: everything but the melody loop. */
  function WithoutMusic(s: seq<Task>): (r: seq<Task>)
    ensures forall t :: t in r <==> t in s && t != MusicLoop
    ensures Tally(r, MusicKind) == 0
    ensures forall k :: k != MusicKind ==> Tally(r, k) == Tally(s, k)
    decreases |s|
  {
    if s == [] then []
    else
      var rest := WithoutMusic(s[1..]);
      if s[0] == MusicLoop then rest
      else
        assert ([s[0]] + rest)[1..] == rest;
        [s[0]] + rest
  }

  /** The continuations an accepted slide transition schedules, in registration order. */
  function TransitionSchedule(from: int, to: int): seq<Task>
  {
    [SlideFrame(from, to), SlideEffects(to), TransitionHearts]
  }

  lemma TallySingle(t: Task, k: Kind)
    ensures Tally([t], k) == if KindOf(t) == k then 1 else 0
  {
    assert [t][1..] == [];
  }

  lemma TallyOfSchedule(from: int, to: int)
    ensures Tally(TransitionSchedule(from, to), TransitionKind) == 1
    ensures Tally(TransitionSchedule(from, to), MusicKind) == 0
  {
    var s := TransitionSchedule(from, to);
    assert s == [SlideFrame(from, to)] + ([SlideEffects(to)] + [TransitionHearts]);
    forall k | k == TransitionKind || k == MusicKind
      ensures Tally(s, k) == if k == TransitionKind then 1 else 0
    {
      TallySingle(SlideFrame(from, to), k);
      TallySingle(SlideEffects(to), k);
      TallySingle(TransitionHearts, k);
      TallyAppend([SlideEffects(to)], [TransitionHearts], k);
      TallyAppend([SlideFrame(from, to)], [SlideEffects(to)] + [TransitionHearts], k);
    }
  }

  /** The three later waves a grand finale schedules. */
  function LaterWaves(): seq<Task>
  {
    [FinaleWave(1), FinaleWave(2), FinaleWave(3)]
  }

  lemma TallyOfLaterWaves()
    ensures Tally(LaterWaves(), FinaleKind) == 3
    ensures Tally(LaterWaves(), TransitionKind) == 0
    ensures Tally(LaterWaves(), MusicKind) == 0
  {
    var s := LaterWaves();
    assert s == [FinaleWave(1)] + ([FinaleWave(2)] + [FinaleWave(3)]);
    forall k: Kind
      ensures Tally(s, k) == if k == FinaleKind then 3 else 0
    {
      TallySingle(FinaleWave(1), k);
      TallySingle(FinaleWave(2), k);
      TallySingle(FinaleWave(3), k);
      TallyAppend([FinaleWave(2)], [FinaleWave(3)], k);
      TallyAppend([FinaleWave(1)], [FinaleWave(2)] + [FinaleWave(3)], k);
    }
  }

  /**
   * The decorative calls a continuation makes when it runs, `current` being
   * the page's current slide at that moment: the animation frame picks the
   * outgoing slide's side by comparing its target with it.
   */
  function TaskEffects(t: Task, current: int): seq<Effect>
  {
    match t
    case SlideFrame(_, to) => [SlideLeaves(ExitSideAsWritten(to, current))]
    case TransitionCleanup => []
    case SlideEffects(s) => SlideEffectsFor(s)
    case TransitionHearts => [RandomHearts]
    case FinaleWave(k) => FinaleWaveEffects(k)
    case MusicLoop => []
  }

  class BirthdayWebsite {
    var currentSlide: int
    var currentQuote: int
    var isTransitioning: bool
    var musicPlaying: bool
    /** audioContextEnabled: the one-shot enabling listener has run. */
    var audioContextEnabled: bool
    /** audioContext is non-null. */
    var audioContext: bool
    /** musicTimeout is non-null (it may name a timer that already fired). */
    var musicTimeout: bool
    /** quoteInterval is registered and not cleared. */
    var quoteAutoplay: bool
    /** heartInterval and sparkleInterval are registered and not cleared. */
    var backgroundAnimations: bool
    var touchStartX: int
    var touchStartY: int
    var touchEndX: int
    var touchEndY: int
    // The next five are closure variables of the input handlers.
    var startTime: int
    var isDragging: bool
    var mouseStartX: int
    var mouseDown: bool
    var lastTap: int
    /** Scheduled continuations that have not run yet. */
    var pending: seq<Task>
    /** Decorative calls issued so far, oldest first. */
    var effects: seq<Effect>

    /**
     * The slide stays in range, and the transition lock is held exactly while
     * one transition continuation (the animation frame or the cleanup after
     * it) is pending; an animation frame that is pending targets the current
     * slide.
     */
    ghost predicate NavigationValid()
      reads this`currentSlide, this`isTransitioning, this`pending
    {
      && 0 <= currentSlide < TotalSlides
      && Tally(pending, TransitionKind) <= 1
      && (isTransitioning <==> Tally(pending, TransitionKind) == 1)
      && (forall t :: t in pending && t.SlideFrame? ==> t.to == currentSlide)
    }

    /** At most one melody loop is pending, and only while the music plays and musicTimeout names it. */
    ghost predicate MusicValid()
      reads this`pending, this`musicPlaying, this`musicTimeout
    {
      && Tally(pending, MusicKind) <= 1
      && (Tally(pending, MusicKind) == 1 ==> musicPlaying && musicTimeout)
    }

    ghost predicate Valid()
      reads this`currentSlide, this`isTransitioning, this`pending, this`musicPlaying, this`musicTimeout
    {
      NavigationValid() && MusicValid()
    }

    predicate QuoteInRange()
      reads this
    {
      0 <= currentQuote < TotalQuotes
    }

    /**
     * The outcome of asking goToSlide for `target`: when the guard accepts it
     * and the slide elements are found, the target becomes current at once,
     * the lock is taken, the incoming slide is placed and the transition's
     * continuations are scheduled; otherwise nothing observable changes.
     */
    twostate predicate RequestedSlide(target: int, found: bool)
      reads this
    {
      if SlideRequestAccepted(old(currentSlide), old(isTransitioning), target) && found then
        && currentSlide == target
        && isTransitioning
        && pending == old(pending) + TransitionSchedule(old(currentSlide), target)
        && effects == old(effects) + [SlideEnters(EntrySide(old(currentSlide), target)), RandomSparkles]
      else
        && currentSlide == old(currentSlide)
        && isTransitioning == old(isTransitioning)
        && pending == old(pending)
        && effects == old(effects)
    }

    /** The page right after construction; `carouselPresent` stands for the quotes carousel element. */
    constructor (carouselPresent: bool)
      ensures Valid() && QuoteInRange()
      ensures currentSlide == 0 && currentQuote == 0
      ensures !isTransitioning && !musicPlaying && !audioContext && !audioContextEnabled && !musicTimeout
      ensures quoteAutoplay == carouselPresent && backgroundAnimations
      ensures !isDragging && !mouseDown && lastTap == 0 && startTime == 0
      ensures touchStartX == 0 && touchStartY == 0 && touchEndX == 0 && touchEndY == 0 && mouseStartX == 0
      ensures pending == [] && effects == []
    {
      currentSlide, currentQuote := 0, 0;
      isTransitioning, musicPlaying := false, false;
      audioContextEnabled, audioContext, musicTimeout := false, false, false;
      quoteAutoplay, backgroundAnimations := carouselPresent, true;
      touchStartX, touchStartY, touchEndX, touchEndY := 0, 0, 0, 0;
      startTime, isDragging := 0, false;
      mouseStartX, mouseDown := 0, false;
      lastTap := 0;
      pending, effects := [], [];
    }

    /**
     * goToSlide.  `slidesFound` stands for both slide elements being present
     * in the document; when they are not, the lock is released again and the
     * slide is left as it was.
     */
    method GoToSlide(slideIndex: int, slidesFound: bool)
      requires Valid()
      modifies this`currentSlide, this`isTransitioning, this`pending, this`effects
      ensures Valid()
      ensures RequestedSlide(slideIndex, slidesFound)
      ensures !SlideRequestAccepted(old(currentSlide), old(isTransitioning), slideIndex) ==>
        currentSlide == old(currentSlide) && isTransitioning == old(isTransitioning)
      ensures SlideRequestAccepted(old(currentSlide), old(isTransitioning), slideIndex) ==>
        (isTransitioning <==> slidesFound) && (currentSlide == slideIndex <==> slidesFound)
    {
      if isTransitioning || slideIndex == currentSlide || slideIndex < 0 || slideIndex >= TotalSlides {
        return;
      }
      isTransitioning := true;
      if !slidesFound {
        isTransitioning := false;
        return;
      }
      var from := currentSlide;
      assert Tally(pending, TransitionKind) == 0;
      forall t | t in pending
        ensures KindOf(t) != TransitionKind
      {
        if KindOf(t) == TransitionKind {
          TallyCountsMember(pending, t);
        }
      }
      effects := effects + [SlideEnters(EntrySide(from, slideIndex))];
      pending := pending + [SlideFrame(from, slideIndex)];
      currentSlide := slideIndex;
      TriggerSlideEffects(slideIndex);
      CreateTransitionEffect();
      assert pending == old(pending) + TransitionSchedule(from, slideIndex);
      TallyOfSchedule(from, slideIndex);
      TallyAppend(old(pending), TransitionSchedule(from, slideIndex), TransitionKind);
      TallyAppend(old(pending), TransitionSchedule(from, slideIndex), MusicKind);
    }

    /** triggerSlideEffects: schedules the destination's choreography 300 ms ahead. */
    method TriggerSlideEffects(slideIndex: int)
      modifies this`pending
      ensures pending == old(pending) + [SlideEffects(slideIndex)]
    {
      pending := pending + [SlideEffects(slideIndex)];
    }

    /** createTransitionEffect: sparkles now, hearts 200 ms later. */
    method CreateTransitionEffect()
      modifies this`pending, this`effects
      ensures effects == old(effects) + [RandomSparkles]
      ensures pending == old(pending) + [TransitionHearts]
    {
      effects := effects + [RandomSparkles];
      pending := pending + [TransitionHearts];
    }

    /** nextSlide: asks for the following slide; at the last slide it does nothing (no wraparound). */
    method NextSlide(slidesFound: bool)
      requires Valid()
      modifies this`currentSlide, this`isTransitioning, this`pending, this`effects
      ensures Valid()
      ensures RequestedSlide(ClampNext(old(currentSlide)), slidesFound)
      ensures old(currentSlide) == TotalSlides - 1 ==>
        currentSlide == old(currentSlide) && isTransitioning == old(isTransitioning) &&
        pending == old(pending) && effects == old(effects)
    {
      if currentSlide < TotalSlides - 1 {
        GoToSlide(currentSlide + 1, slidesFound);
      }
    }

    /** prevSlide: asks for the preceding slide; at slide 0 it does nothing (no wraparound). */
    method PrevSlide(slidesFound: bool)
      requires Valid()
      modifies this`currentSlide, this`isTransitioning, this`pending, this`effects
      ensures Valid()
      ensures RequestedSlide(ClampPrev(old(currentSlide)), slidesFound)
      ensures old(currentSlide) == 0 ==>
        currentSlide == old(currentSlide) && isTransitioning == old(isTransitioning) &&
        pending == old(pending) && effects == old(effects)
    {
      if currentSlide > 0 {
        GoToSlide(currentSlide - 1, slidesFound);
      }
    }

    /** The tail of handleSwipe: classify the stored touch samples and navigate. */
    method HandleSwipe(slidesFound: bool)
      requires Valid()
      modifies this`currentSlide, this`isTransitioning, this`pending, this`effects
      ensures Valid()
      ensures RequestedSlide(IntentTarget(old(currentSlide),
        SwipeIntent(touchStartX - touchEndX, touchStartY - touchEndY)), slidesFound)
    {
      var intent := SwipeIntent(touchStartX - touchEndX, touchStartY - touchEndY);
      if intent == Next {
        NextSlide(slidesFound);
      } else if intent == Previous {
        PrevSlide(slidesFound);
      }
    }

    /** The touchstart handler: records the start of a gesture and clears the drag flag. */
    method TouchStart(x: int, y: int, now: int)
      requires Valid()
      modifies this`touchStartX, this`touchStartY, this`startTime, this`isDragging
      ensures Valid()
      ensures isTransitioning ==>
        touchStartX == old(touchStartX) && touchStartY == old(touchStartY) &&
        startTime == old(startTime) && isDragging == old(isDragging)
      ensures !isTransitioning ==>
        touchStartX == x && touchStartY == y && startTime == now && !isDragging
    {
      if isTransitioning {
        return;
      }
      touchStartX, touchStartY := x, y;
      startTime := now;
      isDragging := false;
    }

    /** The touchmove handler: sets the drag flag on a horizontal move past the drag threshold. */
    method TouchMove(x: int, y: int)
      requires Valid()
      modifies this`isDragging
      ensures Valid()
      ensures isDragging == (old(isDragging) || (!isTransitioning && IsDragMove(x - touchStartX, y - touchStartY)))
    {
      if isTransitioning {
        return;
      }
      var deltaX := x - touchStartX;
      var deltaY := y - touchStartY;
      if IsDragMove(deltaX, deltaY) {
        isDragging := true;
      }
    }

    /**
     * The touchend handler: records the end of the gesture and hands it to
     * handleSwipe only when it was quick and dragged.
     */
    method TouchEnd(x: int, y: int, now: int, slidesFound: bool)
      requires Valid()
      modifies this`touchEndX, this`touchEndY
      modifies this`currentSlide, this`isTransitioning, this`pending, this`effects
      ensures Valid()
      ensures old(isTransitioning) ==> touchEndX == old(touchEndX) && touchEndY == old(touchEndY)
      ensures !old(isTransitioning) ==> touchEndX == x && touchEndY == y
      ensures RequestedSlide(IntentTarget(old(currentSlide),
        TouchIntent(touchStartX, touchStartY, x, y, now - startTime, isDragging)), slidesFound)
    {
      if isTransitioning {
        return;
      }
      touchEndX, touchEndY := x, y;
      var duration := now - startTime;
      if duration < MaxSwipeDurationMs && isDragging {
        HandleSwipe(slidesFound);
      }
    }

    /** The mousedown handler. */
    method MouseDown(x: int)
      requires Valid()
      modifies this`mouseStartX, this`mouseDown
      ensures Valid()
      ensures mouseStartX == x && mouseDown
    {
      mouseStartX := x;
      mouseDown := true;
    }

    /**
     * The mouseup handler: a drag of strictly more than the minimum distance
     * navigates, rightward back and leftward forward.  It does not look at the
     * transition lock itself; goToSlide does.
     */
    method MouseUp(x: int, slidesFound: bool)
      requires Valid()
      modifies this`mouseDown
      modifies this`currentSlide, this`isTransitioning, this`pending, this`effects
      ensures Valid()
      ensures !mouseDown
      ensures RequestedSlide(
        if old(mouseDown) then IntentTarget(old(currentSlide), MouseIntent(x - mouseStartX)) else old(currentSlide),
        slidesFound)
    {
      if mouseDown {
        var deltaX := x - mouseStartX;
        if Abs(deltaX) > MinSwipeDistance {
          if deltaX > 0 {
            PrevSlide(slidesFound);
          } else {
            NextSlide(slidesFound);
          }
        }
        mouseDown := false;
      }
    }

    /** The mouseleave handler: abandons a mouse drag. */
    method MouseLeave()
      requires Valid()
      modifies this`mouseDown
      ensures Valid()
      ensures !mouseDown
    {
      mouseDown := false;
    }

    /** The document's touchend handler for double taps. */
    method DocumentTouchEnd(now: int)
      requires Valid()
      modifies this`lastTap, this`effects
      ensures Valid()
      ensures lastTap == now
      ensures effects == old(effects) + (if IsDoubleTap(now - old(lastTap)) then DoubleTapEffects else [])
    {
      var tapLength := now - lastTap;
      if tapLength < DoubleTapWindowMs && tapLength > 0 {
        effects := effects + DoubleTapEffects;
      }
      lastTap := now;
    }

    /** The keydown handler. */
    method KeyDown(key: string, slidesFound: bool)
      requires Valid()
      modifies this`currentSlide, this`isTransitioning, this`pending, this`effects
      ensures Valid()
      ensures RequestedSlide(IntentTarget(old(currentSlide), KeyIntent(key)), slidesFound)
    {
      if key == "ArrowRight" || key == " " {
        NextSlide(slidesFound);
      } else if key == "ArrowLeft" {
        PrevSlide(slidesFound);
      }
    }

    /** The celebration buttons: "start-journey" moves on, "celebrate" runs the grand finale. */
    method CelebrationClick(action: string, slidesFound: bool, canVibrate: bool)
      requires Valid()
      modifies this`currentSlide, this`isTransitioning, this`pending, this`effects
      ensures Valid()
      ensures action == "start-journey" ==> RequestedSlide(ClampNext(old(currentSlide)), slidesFound)
      ensures action == "celebrate" ==>
        currentSlide == old(currentSlide) && isTransitioning == old(isTransitioning) &&
        pending == old(pending) + LaterWaves() &&
        effects == old(effects) + FinaleWaveEffects(0) + (if canVibrate then [Vibrate(FinalePattern)] else [])
      ensures action != "start-journey" && action != "celebrate" ==>
        currentSlide == old(currentSlide) && isTransitioning == old(isTransitioning) &&
        pending == old(pending) && effects == old(effects)
    {
      if action == "start-journey" {
        NextSlide(slidesFound);
      } else if action == "celebrate" {
        ShowGrandFinale(canVibrate);
      }
    }

    /**
     * showGrandFinale: wave 0 at once, waves 1 to 3 scheduled, and a
     * vibration when the platform has one.  Calls never block each other.
     */
    method ShowGrandFinale(canVibrate: bool)
      requires Valid()
      modifies this`pending, this`effects
      ensures Valid()
      ensures effects == old(effects) + FinaleWaveEffects(0) + (if canVibrate then [Vibrate(FinalePattern)] else [])
      ensures pending == old(pending) + LaterWaves()
      ensures Tally(pending, FinaleKind) == Tally(old(pending), FinaleKind) + 3
    {
      effects := effects + FinaleWaveEffects(0);
      var waves := LaterWaves();
      TallyOfLaterWaves();
      TallyAppend(pending, waves, FinaleKind);
      TallyAppend(pending, waves, TransitionKind);
      TallyAppend(pending, waves, MusicKind);
      pending := pending + waves;
      if canVibrate {
        effects := effects + [Vibrate(FinalePattern)];
      }
    }

    /** goToQuote: refused when it names the quote shown or a slide transition is in flight. */
    method GoToQuote(quoteIndex: int)
      requires Valid()
      modifies this`currentQuote
      ensures Valid()
      ensures currentQuote ==
        if QuoteRequestAccepted(old(currentQuote), isTransitioning, quoteIndex) then quoteIndex else old(currentQuote)
      ensures 0 <= quoteIndex < TotalQuotes && old(QuoteInRange()) ==> QuoteInRange()
    {
      if quoteIndex == currentQuote || isTransitioning {
        return;
      }
      currentQuote := quoteIndex;
    }

    /** nextQuote: the following quote, wrapping from the last to the first. */
    method NextQuote()
      requires Valid()
      modifies this`currentQuote
      ensures Valid()
      ensures currentQuote == if isTransitioning then old(currentQuote) else NextQuoteIndex(old(currentQuote))
      ensures old(QuoteInRange()) ==> QuoteInRange()
    {
      NextQuoteAlwaysMoves(currentQuote);
      if QuoteInRange() {
        QuoteStepsWrap(currentQuote);
      }
      GoToQuote(NextQuoteIndex(currentQuote));
    }

    /** prevQuote: the preceding quote, wrapping from the first to the last. */
    method PrevQuote()
      requires Valid()
      modifies this`currentQuote
      ensures Valid()
      ensures currentQuote == if isTransitioning then old(currentQuote) else PrevQuoteIndex(old(currentQuote))
      ensures old(QuoteInRange()) ==> QuoteInRange()
    {
      PrevQuoteAlwaysMoves(currentQuote);
      if QuoteInRange() {
        QuoteStepsWrap(currentQuote);
      }
      GoToQuote(PrevQuoteIndex(currentQuote));
    }

    /** One tick of the quote autoplay interval: advances only on the quotes slide. */
    method AutoplayTick()
      requires Valid() && quoteAutoplay
      modifies this`currentQuote
      ensures Valid()
      ensures currentQuote ==
        if currentSlide == QuotesSlide && !isTransitioning then NextQuoteIndex(old(currentQuote)) else old(currentQuote)
      ensures old(QuoteInRange()) ==> QuoteInRange()
    {
      if currentSlide == QuotesSlide {
        NextQuote();
      }
    }

    /**
     * The one-shot listener of enableAudioContext; `creationSucceeds` stands
     * for the browser constructing an AudioContext without throwing.
     */
    method EnableAudio(creationSucceeds: bool)
      requires Valid()
      modifies this`audioContextEnabled, this`audioContext
      ensures Valid()
      ensures audioContextEnabled
      ensures audioContext == (old(audioContext) || (!old(audioContextEnabled) && creationSucceeds))
    {
      if !audioContextEnabled {
        audioContextEnabled := true;
        if creationSucceeds {
          audioContext := true;
        }
      }
    }

    /**
     * playBirthdayMelody, reduced to its control flow: without an audio
     * context it does nothing; when playback succeeds it schedules the next
     * loop in musicTimeout; when playback throws it clears musicPlaying.
     */
    method PlayBirthdayMelody(playbackSucceeds: bool)
      requires NavigationValid() && Tally(pending, MusicKind) == 0
      modifies this`musicPlaying, this`musicTimeout, this`pending
      ensures NavigationValid()
      ensures !audioContext ==>
        musicPlaying == old(musicPlaying) && musicTimeout == old(musicTimeout) && pending == old(pending)
      ensures audioContext && playbackSucceeds ==>
        musicPlaying == old(musicPlaying) && musicTimeout && pending == old(pending) + [MusicLoop]
      ensures audioContext && !playbackSucceeds ==>
        !musicPlaying && musicTimeout == old(musicTimeout) && pending == old(pending)
      ensures Tally(pending, MusicKind) == if audioContext && playbackSucceeds then 1 else 0
    {
      if !audioContext {
        return;
      }
      if playbackSucceeds {
        TallySingle(MusicLoop, TransitionKind);
        TallySingle(MusicLoop, MusicKind);
        TallyAppend(pending, [MusicLoop], TransitionKind);
        TallyAppend(pending, [MusicLoop], MusicKind);
        pending := pending + [MusicLoop];
        musicTimeout := true;
      } else {
        musicPlaying := false;
      }
    }

    /** stopMusic: cancels the pending melody loop, if musicTimeout names one. */
    method StopMusic()
      requires Valid()
      modifies this`musicTimeout, this`pending
      ensures Valid()
      ensures !musicTimeout
      ensures pending == if old(musicTimeout) then WithoutMusic(old(pending)) else old(pending)
      ensures Tally(pending, MusicKind) == 0
    {
      if musicTimeout {
        pending := WithoutMusic(pending);
        musicTimeout := false;
      }
    }

    /**
     * toggleMusic: always flips musicPlaying, even without an audio context
     * and even when playback throws (the flag is set after the attempt).
     * Turning the music off leaves no melody loop pending.
     */
    method ToggleMusic(playbackSucceeds: bool)
      requires Valid()
      modifies this`musicPlaying, this`musicTimeout, this`pending
      ensures Valid()
      ensures musicPlaying == !old(musicPlaying)
      ensures !musicPlaying ==> Tally(pending, MusicKind) == 0 && !musicTimeout
      ensures old(musicPlaying) ==> pending == (if old(musicTimeout) then WithoutMusic(old(pending)) else old(pending))
      ensures !old(musicPlaying) ==> pending == old(pending) + (if audioContext && playbackSucceeds then [MusicLoop] else [])
      ensures !old(musicPlaying) ==> musicTimeout == (old(musicTimeout) || (audioContext && playbackSucceeds))
    {
      if musicPlaying {
        StopMusic();
        musicPlaying := false;
      } else {
        PlayBirthdayMelody(playbackSucceeds);
        musicPlaying := true;
      }
    }

    /**
     * The event loop fires pending continuation `i`.  Only the cleanup
     * continuation releases the transition lock, and it is pending once per
     * accepted transition.  `playbackSucceeds` is passed to the melody loop.
     */
    method RunTask(i: nat, playbackSucceeds: bool)
      requires Valid() && i < |pending|
      modifies this`isTransitioning, this`pending, this`effects, this`musicPlaying, this`musicTimeout
      ensures Valid()
      ensures isTransitioning == (old(isTransitioning) && !old(pending[i]).TransitionCleanup?)
      ensures Tally(pending, TransitionKind) + (if old(pending[i]).TransitionCleanup? then 1 else 0) ==
        Tally(old(pending), TransitionKind)
      ensures old(pending[i]).SlideFrame? ==> old(pending[i]).to == currentSlide
      ensures effects == old(effects) + TaskEffects(old(pending[i]), currentSlide)
      ensures old(pending[i]).SlideFrame? ==> effects == old(effects) + [SlideLeaves(RightSide)]
      ensures pending == old(pending[..i] + pending[i + 1..]) +
        match old(pending[i])
        case SlideFrame(_, _) => [TransitionCleanup]
        case MusicLoop => if audioContext && playbackSucceeds then [MusicLoop] else []
        case _ => []
      ensures old(pending[i]) != MusicLoop ==> musicPlaying == old(musicPlaying)
      ensures old(pending[i]) == MusicLoop ==> musicPlaying == (!audioContext || playbackSucceeds)
      ensures musicTimeout == (old(musicTimeout) || (old(pending[i]) == MusicLoop && audioContext && playbackSucceeds))
    {
      var t := pending[i];
      var rest := pending[..i] + pending[i + 1..];
      TallyRemove(pending, i, TransitionKind);
      TallyRemove(pending, i, MusicKind);
      TallyRemove(pending, i, FinaleKind);
      assert forall u :: u in rest ==> u in pending;
      pending := rest;
      match t
      case SlideFrame(from, to) =>
        effects := effects + [SlideLeaves(ExitSideAsWritten(to, currentSlide))];
        TallySingle(TransitionCleanup, TransitionKind);
        TallySingle(TransitionCleanup, MusicKind);
        TallyAppend(pending, [TransitionCleanup], TransitionKind);
        TallyAppend(pending, [TransitionCleanup], MusicKind);
        pending := pending + [TransitionCleanup];
      case TransitionCleanup =>
        isTransitioning := false;
      case SlideEffects(s) =>
        effects := effects + SlideEffectsFor(s);
      case TransitionHearts =>
        effects := effects + [RandomHearts];
      case FinaleWave(k) =>
        effects := effects + FinaleWaveEffects(k);
      case MusicLoop =>
        if musicPlaying {
          PlayBirthdayMelody(playbackSucceeds);
        }
    }

    /** cleanup: clears the intervals and the melody timer; slide continuations still run. */
    method Cleanup()
      requires Valid()
      modifies this`quoteAutoplay, this`backgroundAnimations, this`pending
      ensures Valid()
      ensures !quoteAutoplay && !backgroundAnimations
      ensures pending == if musicTimeout then WithoutMusic(old(pending)) else old(pending)
      ensures Tally(pending, MusicKind) == 0
      ensures Tally(pending, TransitionKind) == Tally(old(pending), TransitionKind)
    {
      quoteAutoplay := false;
      backgroundAnimations := false;
      if musicTimeout {
        pending := WithoutMusic(pending);
      }
    }
  }

  /**
   * Two slide requests in a row: the second is refused while the first
   * transition holds the lock, and accepted once the cleanup has run.
   */
  method RapidSlideRequests() returns (whileLocked: int, afterRelease: int)
    ensures whileLocked == 1 && afterRelease == 2
  {
    var site := new BirthdayWebsite(true);
    site.GoToSlide(1, true);
    site.GoToSlide(2, true);
    whileLocked := site.currentSlide;
    assert site.pending == [SlideFrame(0, 1), SlideEffects(1), TransitionHearts];
    site.RunTask(0, true);
    assert site.pending == [SlideEffects(1), TransitionHearts, TransitionCleanup];
    site.RunTask(2, true);
    site.GoToSlide(2, true);
    afterRelease := site.currentSlide;
  }

  /** Two grand finales in quick succession: both first waves are drawn and all six later waves are pending. */
  method FinaleTwice() returns (drawn: seq<Effect>, scheduled: nat)
    ensures drawn == FinaleWaveEffects(0) + FinaleWaveEffects(0)
    ensures scheduled == 6
  {
    var site := new BirthdayWebsite(true);
    site.ShowGrandFinale(false);
    site.ShowGrandFinale(false);
    drawn := site.effects;
    scheduled := Tally(site.pending, FinaleKind);
  }
}
