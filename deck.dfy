/**
 * Index arithmetic of the two decks of the page: five slides that clamp at
 * both ends, and five quotes that wrap around.  The quote arithmetic is
 * written with JavaScript's `%`, which truncates toward zero.
 */
module Deck {
  import opened Gestures

  const TotalSlides: int := 5
  const TotalQuotes: int := 5
  /** The slide that holds the quote carousel; autoplay only advances there. */
  const QuotesSlide: int := 1

  /** The guard of goToSlide: no transition in flight, a different slide, and in range. */
  predicate SlideRequestAccepted(current: int, transitioning: bool, target: int)
  {
    !transitioning && target != current && 0 <= target < TotalSlides
  }

  /** The guard of goToQuote: a different quote and no slide transition in flight. */
  predicate QuoteRequestAccepted(current: int, transitioning: bool, target: int)
  {
    target != current && !transitioning
  }

  /** The slide nextSlide asks for; at the last slide it asks for nothing new. */
  function ClampNext(s: int): (r: int)
    ensures 0 <= s < TotalSlides ==> 0 <= r < TotalSlides
    ensures r == s <==> s >= TotalSlides - 1
    ensures r != s ==> r == s + 1
  {
    if s < TotalSlides - 1 then s + 1 else s
  }

  /** The slide prevSlide asks for; at slide 0 it asks for nothing new. */
  function ClampPrev(s: int): (r: int)
    ensures 0 <= s < TotalSlides ==> 0 <= r < TotalSlides
    ensures r == s <==> s <= 0
    ensures r != s ==> r == s - 1
  {
    if s > 0 then s - 1 else s
  }

  /** The slide an intent asks for, from slide `s`. */
  function IntentTarget(s: int, intent: Intent): int
  {
    match intent
    case Next => ClampNext(s)
    case Previous => ClampPrev(s)
    case Ignore => s
  }

  /**
   * JavaScript's `a % totalQuotes`: the remainder truncates toward zero, so
   * it takes the sign of `a` (Dafny's `%` is Euclidean and never negative).
   */
  function JsQuoteRem(a: int): (r: int)
    ensures 0 <= a ==> 0 <= r < TotalQuotes
    ensures a < 0 ==> -TotalQuotes < r <= 0
    ensures (a - r) % TotalQuotes == 0
  {
    if a >= 0 then a % TotalQuotes
    else
      var k, m := (-a) / TotalQuotes, (-a) % TotalQuotes;
      assert a + m == (-k) * TotalQuotes;
      -m
  }

  /** nextQuote's index: (currentQuote + 1) % totalQuotes. */
  function NextQuoteIndex(q: int): int
  {
    JsQuoteRem(q + 1)
  }

  /** prevQuote's index: (currentQuote - 1 + totalQuotes) % totalQuotes. */
  function PrevQuoteIndex(q: int): int
  {
    JsQuoteRem(q - 1 + TotalQuotes)
  }

  /**
   * On an in-range quote, next and previous stay in range, always move,
   * wrap at the ends and undo each other.
   */
  lemma QuoteStepsWrap(q: int)
    requires 0 <= q < TotalQuotes
    ensures 0 <= NextQuoteIndex(q) < TotalQuotes && NextQuoteIndex(q) != q
    ensures 0 <= PrevQuoteIndex(q) < TotalQuotes && PrevQuoteIndex(q) != q
    ensures q == TotalQuotes - 1 ==> NextQuoteIndex(q) == 0
    ensures q == 0 ==> PrevQuoteIndex(q) == TotalQuotes - 1
    ensures PrevQuoteIndex(NextQuoteIndex(q)) == q && NextQuoteIndex(PrevQuoteIndex(q)) == q
  {
  }

  /** nextQuote never asks for the quote already shown, whatever the index. */
  lemma NextQuoteAlwaysMoves(q: int)
    ensures NextQuoteIndex(q) != q
  {
    var r := NextQuoteIndex(q);
    if q >= 0 {
      assert 0 <= r < TotalQuotes;
      if q < TotalQuotes - 1 {
        assert r == q + 1;
      } else if q == TotalQuotes - 1 {
        assert r == 0;
      }
    } else if q < -1 {
      assert q + 1 < 0;
      assert (q + 1 - r) % TotalQuotes == 0;
    } else {
      assert r == 0;
    }
  }

  /** prevQuote never asks for the quote already shown, whatever the index. */
  lemma PrevQuoteAlwaysMoves(q: int)
    ensures PrevQuoteIndex(q) != q
  {
    var r := PrevQuoteIndex(q);
    if q - 1 + TotalQuotes >= 0 {
      assert 0 <= r < TotalQuotes;
      if q == 0 {
        assert r == TotalQuotes - 1;
      } else if 0 < q < TotalQuotes {
        assert r == q - 1;
      }
    } else {
      assert -TotalQuotes < r;
    }
  }

  /** The slide reached from `s` by `n` nextSlide requests, each after the previous one finished. */
  function SlideAfterNexts(s: int, n: nat): int
    decreases n
  {
    if n == 0 then s else SlideAfterNexts(ClampNext(s), n - 1)
  }

  /** The slide reached from `s` by `n` prevSlide requests, each after the previous one finished. */
  function SlideAfterPrevs(s: int, n: nat): int
    decreases n
  {
    if n == 0 then s else SlideAfterPrevs(ClampPrev(s), n - 1)
  }

  /** The quote shown after `n` autoplay ticks on the quotes slide, starting at `q`. */
  function QuoteAfterTicks(q: int, n: nat): int
    decreases n
  {
    if n == 0 then q else QuoteAfterTicks(NextQuoteIndex(q), n - 1)
  }

  /** Slides never wrap: repeated forward requests stop at the last slide and stay. */
  lemma {:induction false} NextsStopAtLastSlide(s: int, n: nat)
    requires 0 <= s < TotalSlides
    ensures SlideAfterNexts(s, n) == if s + n < TotalSlides then s + n else TotalSlides - 1
    decreases n
  {
    if n > 0 {
      NextsStopAtLastSlide(ClampNext(s), n - 1);
    }
  }

  /** Slides never wrap: repeated backward requests stop at slide 0 and stay. */
  lemma {:induction false} PrevsStopAtFirstSlide(s: int, n: nat)
    requires 0 <= s < TotalSlides
    ensures SlideAfterPrevs(s, n) == if s - n >= 0 then s - n else 0
    decreases n
  {
    if n > 0 {
      PrevsStopAtFirstSlide(ClampPrev(s), n - 1);
    }
  }

  /** Quotes wrap: after `n` ticks the carousel shows quote (q + n) mod 5. */
  lemma {:induction false} TicksWrapAround(q: int, n: nat)
    requires 0 <= q < TotalQuotes
    ensures QuoteAfterTicks(q, n) == (q + n) % TotalQuotes
    decreases n
  {
    if n > 0 {
      QuoteStepsWrap(q);
      var q' := NextQuoteIndex(q);
      TicksWrapAround(q', n - 1);
      if q < TotalQuotes - 1 {
        assert q' == q + 1;
      } else {
        assert q' == 0;
        assert (q + n) % TotalQuotes == (n - 1) % TotalQuotes;
      }
    }
  }

  /** Every quote is shown within five ticks, from any starting quote. */
  lemma EveryQuoteShown(q: int, target: int)
    requires 0 <= q < TotalQuotes && 0 <= target < TotalQuotes
    ensures QuoteAfterTicks(q, (target - q) % TotalQuotes) == target
  {
    TicksWrapAround(q, (target - q) % TotalQuotes);
  }
}
