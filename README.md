# Birthday website navigation core, in Dafny

This project models the navigation and gesture state machine of the
`BirthdayWebsite` page object (`app.js`): five slides that clamp at both ends,
a five-quote carousel that wraps around, the `isTransitioning` lock that
serialises slide transitions, the touch, mouse, keyboard and button handlers
that turn input into navigation, double-tap detection, the music toggle, and
the decorative choreography each transition triggers.

Files:

- `gestures.dfy` (module `Gestures`): pure classification of input.
  - `SwipeIntent` is the rule of `handleSwipe`.
  - `TouchIntent` is the whole touch pipeline: duration under 500 ms and the drag flag.
  - `MouseIntent` is the `mouseup` rule.
  - `KeyIntent` is the keydown mapping. `IsDragMove` and `IsDoubleTap` are the two handler tests.
- `deck.dfy` (module `Deck`): slide and quote index arithmetic.
  - The guards of `goToSlide` and `goToQuote`.
  - The clamps of `nextSlide`/`prevSlide`.
  - The wrap-around of `nextQuote`/`prevQuote`, written with JavaScript's truncating `%`.
  - Lemmas on repeated steps.
- `effects.dfy` (module `Effects`): the effect-log entries.
  - The per-destination choreography of `triggerSlideEffects`.
  - The four waves of `showGrandFinale`.
  - The sides a slide enters from and leaves to.
- `website.dfy` (module `Website`): class `BirthdayWebsite`, with the page's fields and handlers as methods.

How time, the DOM and the browser are represented:

- Every continuation of the modelled navigation, finale and melody that the
  page schedules with `setTimeout` or `requestAnimationFrame` is a `Task`
  appended to the field `pending`. The timers of the parts listed under
  "Left out" are not.
- The event loop is the method `RunTask(i)`. It may fire any pending task, so
  every property holds for every firing order the delays could produce.
- Decorative calls are appended to the field `effects`.
- A DOM lookup inside a modelled handler that decides its state change is a boolean parameter:
  - `slidesFound` for the two slide elements;
  - `carouselPresent` for the quote carousel.
- The elements the page looks up only to register its handlers are taken to exist (see "Left out").
- A browser facility that may be missing or may throw is also a boolean parameter:
  - `creationSucceeds` for AudioContext creation;
  - `playbackSucceeds` for the melody;
  - `canVibrate` for `navigator.vibrate`.
- Clock readings (`Date.now()`) are integer parameters.

The class invariant `Valid()` says four things:

- the slide index stays in [0, 5);
- the lock is held exactly while one transition continuation is pending (the
  animation frame, or the 500 ms cleanup it schedules);
- a pending animation frame targets the current slide;
- at most one melody loop is pending, and only while the music plays.

Behaviour the code has and a reader might not expect:

- A dragged touch of zero duration still navigates. Only `duration < 500` is tested (`Gestures.SampleGestures`).
- Exactly 50 px navigates by touch but not by mouse.
- A tie between the axes navigates by touch.
- `goToQuote` checks the lock, so an autoplay tick during a slide transition is dropped.
- `goToQuote` has no range check. The quote index stays in range only because every caller passes 0..4.
- When playback throws inside `toggleMusic`, the `catch` clears `musicPlaying`, but `toggleMusic` then sets it to true anyway.
- A grand finale draws its first wave at once and schedules three more. Two finales give two immediate waves and six pending ones, and none is dropped.
- `cleanup` does not cancel the slide continuations. A transition in flight still releases the lock after teardown.

## Model

| member | source | states |
|---|---|---|
| Gestures.SwipeIntent | app.js:240-268 | a swipe goes forward iff deltaX >= 50 and abs(deltaY) <= deltaX, back iff deltaX <= -50 and abs(deltaY) <= -deltaX, otherwise nothing |
| Gestures.TouchIntent | app.js:180-196 | a touch gesture navigates iff it lasted under 500 ms, was dragged, moved at least 50 px horizontally and no more vertically; forward only for a leftward, back only for a rightward movement |
| Gestures.MouseIntent | app.js:217-228 | a mouse drag goes forward iff endX - startX < -50 and back iff endX - startX > 50 (strict, no vertical or time check) |
| Gestures.KeyIntent | app.js:121-129 | ArrowRight and space mean forward, ArrowLeft back, any other key nothing |
| Gestures.TouchAndMouseAgreeOffThreshold | app.js:217-268 | on a horizontal movement the touch and mouse rules agree except at exactly 50 px, where touch navigates and mouse does not |
| Gestures.DiagonalSwipeNavigates | app.js:247-267 | equal axes of at least 50 px still navigate, by the sign of deltaX |
| Gestures.SmallTouchIgnored | app.js:252-255 | a touch that moved under 50 px horizontally never navigates |
| Gestures.SampleGestures | app.js:180-268 | sample gestures: quick leftward drag goes forward; vertical, slow or undragged ones do nothing; a zero-duration dragged one still goes forward |
| Deck.ClampNext | app.js:548-554 | nextSlide's target stays in range, equals the current slide exactly at the last slide, and is otherwise the next one |
| Deck.ClampPrev | app.js:556-562 | prevSlide's target stays in range, equals the current slide exactly at slide 0, and is otherwise the previous one |
| Deck.JsQuoteRem | app.js:450 | JavaScript's % by 5: congruent to its argument, non-negative and below 5 for a non-negative argument, in (-5, 0] for a negative one |
| Deck.QuoteStepsWrap | app.js:449-457 | on an in-range quote, next and prev stay in range, always move, wrap 4 -> 0 and 0 -> 4, and undo each other |
| Deck.NextQuoteAlwaysMoves | app.js:449-452 | nextQuote never names the current quote, for any index, so only the lock can refuse it |
| Deck.PrevQuoteAlwaysMoves | app.js:454-457 | prevQuote never names the current quote, for any index |
| Deck.NextsStopAtLastSlide | app.js:548-554 | n forward steps from slide s land on min(s + n, 4): slides never wrap |
| Deck.PrevsStopAtFirstSlide | app.js:556-562 | n backward steps from slide s land on max(s - n, 0): slides never wrap |
| Deck.TicksWrapAround | app.js:403-407 | n autoplay advances from quote q show quote (q + n) mod 5 |
| Deck.EveryQuoteShown | app.js:403-407 | every quote is reached from any quote within five advances |
| Effects.SlideEffectsFor | app.js:528-546 | slides 1 to 4 have a choreography and slide 0 or an out-of-range index none; the last slide gets confetti(50) and a heart burst |
| Effects.SlideEffectsDistinct | app.js:530-544 | each destination slide 1..4 has its own choreography |
| Effects.FinaleWaveEffects | app.js:1026-1043 | the finale has exactly four waves, 0 to 3 |
| Effects.EntrySide | app.js:484-492 | a forward move places the incoming slide on the right, any other move on the left |
| Effects.ExitSideAsWritten | app.js:501 | the outgoing slide goes left exactly when the target exceeds the slide that is current when the animation frame runs, otherwise right |
| Effects.ExitSide | app.js:484-503 | the outgoing slide always leaves on the side opposite the one the incoming slide enters from |
| Effects.ExitSideAsWrittenCrossesForward | app.js:500-518 | as written, a forward transition sends the outgoing slide right, the side the incoming one enters from |
| Effects.ExitSideAsWrittenAgreesBackward | app.js:501 | on backward transitions the written comparison gives the intended side |
| Website.WithoutMusic | app.js:619-624 | clearing the melody timer removes every melody loop and keeps every other pending continuation |
| Website.BirthdayWebsite.constructor | app.js:4-24 | the page starts on slide 0 and quote 0, unlocked, silent, with all touch and mouse samples at 0, nothing pending and the autoplay running when the carousel exists |
| Website.BirthdayWebsite.GoToSlide | app.js:459-526 | a request refused by the guard (locked, same slide, out of range) changes nothing; an accepted one takes the lock and makes the target current at once and schedules the frame, effects and hearts; with slide elements missing the lock is released and the slide kept |
| Website.BirthdayWebsite.TriggerSlideEffects | app.js:528-546 | schedules the destination's choreography as one continuation |
| Website.BirthdayWebsite.CreateTransitionEffect | app.js:942-948 | sparkles now, hearts as a scheduled continuation |
| Website.BirthdayWebsite.NextSlide | app.js:548-554 | asks goToSlide for the clamped next slide; at the last slide nothing changes |
| Website.BirthdayWebsite.PrevSlide | app.js:556-562 | asks goToSlide for the clamped previous slide; at slide 0 nothing changes |
| Website.BirthdayWebsite.HandleSwipe | app.js:240-268 | navigates as SwipeIntent classifies the stored start and end samples |
| Website.BirthdayWebsite.TouchStart | app.js:153-162 | records start position and time and clears the drag flag, unless locked |
| Website.BirthdayWebsite.TouchMove | app.js:165-178 | sets the drag flag on a horizontal move over 10 px, unless locked; the flag then stays set until the next touchstart |
| Website.BirthdayWebsite.TouchEnd | app.js:181-196 | unless locked, records the end position and navigates as TouchIntent classifies the gesture |
| Website.BirthdayWebsite.MouseDown | app.js:202-206 | records the start of a mouse drag |
| Website.BirthdayWebsite.MouseUp | app.js:217-232 | ends a mouse drag and navigates as MouseIntent classifies it; without a drag nothing changes |
| Website.BirthdayWebsite.MouseLeave | app.js:234-237 | abandons a mouse drag |
| Website.BirthdayWebsite.DocumentTouchEnd | app.js:284-296 | a touchend 1..499 ms after the previous one draws the double-tap effects; lastTap always becomes now |
| Website.BirthdayWebsite.KeyDown | app.js:121-129 | navigates as KeyIntent maps the key |
| Website.BirthdayWebsite.CelebrationClick | app.js:80-99 | "start-journey" asks for the next slide, "celebrate" runs the grand finale, any other action changes nothing |
| Website.BirthdayWebsite.ShowGrandFinale | app.js:1026-1049 | draws wave 0 (and vibrates when possible) at once and schedules waves 1 to 3, adding three pending waves per call |
| Website.BirthdayWebsite.GoToQuote | app.js:410-447 | refused when it names the shown quote or the lock is held, otherwise shows the target; an in-range target keeps the quote in range |
| Website.BirthdayWebsite.NextQuote | app.js:449-452 | shows the wrapped next quote unless locked, keeping the quote in range |
| Website.BirthdayWebsite.PrevQuote | app.js:454-457 | shows the wrapped previous quote unless locked, keeping the quote in range |
| Website.BirthdayWebsite.AutoplayTick | app.js:402-408 | advances the quote only on slide 1 and outside a transition, otherwise changes nothing |
| Website.BirthdayWebsite.EnableAudio | app.js:585-602 | the first call creates the audio context if the browser allows it; later calls change nothing |
| Website.BirthdayWebsite.PlayBirthdayMelody | app.js:626-689 | without an audio context nothing happens; successful playback schedules exactly one melody loop; failed playback clears musicPlaying |
| Website.BirthdayWebsite.StopMusic | app.js:619-624 | leaves no melody loop pending and musicTimeout cleared |
| Website.BirthdayWebsite.ToggleMusic | app.js:604-617 | always negates musicPlaying, with or without audio; turning music off leaves no melody loop pending and musicTimeout cleared; turning it on sets musicTimeout only when playback is scheduled, and otherwise keeps it |
| Website.BirthdayWebsite.RunTask | app.js:500-516 | only the cleanup continuation releases the lock and removes the one transition continuation; the animation frame finds its target already current, so it always sends the outgoing slide right, and schedules the cleanup; each continuation draws its choreography: triggerSlideEffects' timer (app.js:529-545), the transition hearts (app.js:945-947) and the finale waves (app.js:1031-1043); the melody loop (app.js:677-681) replays the melody; musicTimeout changes only when a melody loop reschedules itself |
| Website.BirthdayWebsite.Cleanup | app.js:1052-1058 | stops the intervals and cancels the melody loop; slide continuations are kept, so the lock is still released |
| Website.RapidSlideRequests | app.js:459-518 | from slide 0, a request for 1 then one for 2 leave slide 1; after the cleanup runs, the request for 2 is accepted |
| Website.FinaleTwice | app.js:1026-1043 | two finales draw two first waves and leave six later waves pending |

## Findings

| source | as written | input that shows it | evidently intended | confidence | as-written member | corrected member |
|---|---|---|---|---|---|---|
| app.js:501 | the animation-frame callback picks the outgoing slide's side with `slideIndex > this.currentSlide`, but app.js:518 has already set `currentSlide = slideIndex`, so the test is always false and the slide always leaves to the right | goToSlide(1) from slide 0: the incoming slide enters from the right and the outgoing one is also sent right, so they cross | compare with the slide being left (the value before line 518), so a forward move sends the outgoing slide left | high; not executed | Effects.ExitSideAsWrittenCrossesForward | Effects.ExitSide |

`BirthdayWebsite.RunTask` logs the side as written, through
`Effects.ExitSideAsWritten` on the slide that is current when the frame runs.
Its contract shows that the frame always sees its target already current and
that the outgoing slide therefore always leaves to the right. `Effects.ExitSide`
is the corrected side, proved opposite to the entry side.

## Left out

- Styling is not modelled: class toggles, opacity, the transforms that reset a slide after its transition, reflows, the cursor, `updateNavigation`'s dot classes and `hideSwipeIndicator`. This is presentation only. Two transforms are kept as effect entries: the incoming slide's starting side (app.js:484-492) as `SlideEnters`, and the outgoing slide's exit (app.js:501) as `SlideLeaves`. The incoming slide's move to the centre (app.js:503) is not logged.
- The contents of the particle, heart, balloon and confetti effects are not modelled, and neither are their random placement and the CSS keyframes. Only the call itself is logged.
- The background intervals are reduced to one flag, because they only spawn decorations.
- `createInitialEffects`, the loading screen and the card interactions are not modelled.
- The single-tap `click` effects and `createTouchEffect` are not modelled; they draw only.
- The Web Audio melody synthesis, its floating-point notes and durations, `audioContext.resume()` and the volume slider are not modelled. They call a foreign browser API. Only the control flow of `playBirthdayMelody` is kept.
- Real time is not modelled, including the delays (300, 500, 200 ms and the rest). `RunTask` may fire pending continuations in any order, which covers the order the delays impose.
- `goToQuote`'s slide-in animation and its two timers are not modelled. They only restyle the quote card.
- The `mousemove` handler is not modelled. It only calls `preventDefault` and changes no state.
- Page bootstrap is not modelled: mobile detection, double-tap zoom prevention, the context menu, visibility handling and orientation repaint. This is platform glue.
- `cleanup`'s `cancelAnimationFrame` is not modelled. `animationFrameId` is never assigned, so the call never runs.
- `console.log` diagnostics are not modelled.
- Pointer coordinates are integers. `clientX` and `clientY` are doubles in the browser and can be fractional on high-DPI screens, so a swipe of 49.5 px is not expressible. The 10 px and 50 px comparisons keep their form.
- The `slideContainer` and `touchOverlay` elements are taken to exist. Without them `setupTouchEvents` and `setupTouchEffects` return early and no touch, mouse or double-tap handler is registered; the model does not capture that page.
- The `musicToggle` button, the quote dots and the quote navigation buttons are taken to exist. Without them their click handlers are not registered, so `toggleMusic`, `goToQuote`, `prevQuote` and `nextQuote` are not reachable by click.
- The timers outside the modelled continuations are not tasks: the 2000 ms start-up timer, `goToQuote`'s 50 and 400 ms timers, the timers of `hideSwipeIndicator` and `createTouchEffect`, and the timers that remove particles.
