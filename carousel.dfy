/**
 * The home-page hero carousel: the current slide index moves forward and backward modulo the
 * number of slides, and autoplay advances it while it is on and there is more than one slide.
 */
module Carousel {
  import opened Arith

  /** `(prev + 1) % slides.length`. */
  function NextIndex(i: nat, n: nat): (r: nat)
    requires n > 0
    ensures r < n
    ensures i < n - 1 ==> r == i + 1
    ensures i == n - 1 ==> r == 0
  {
    (i + 1) % n
  }

  /** `(prev - 1 + slides.length) % slides.length`. */
  function PrevIndex(i: nat, n: nat): (r: nat)
    requires n > 0
    ensures r < n
    ensures 0 < i < n ==> r == i - 1
    ensures i == 0 ==> r == n - 1
  {
    (i - 1 + n) % n
  }

  /** Next then previous, or previous then next, returns to the same slide. */
  lemma NextPrevInverse(i: nat, n: nat)
    requires i < n
    ensures PrevIndex(NextIndex(i, n), n) == i
    ensures NextIndex(PrevIndex(i, n), n) == i
  {
  }

  /** The slide reached after `k` presses of next. */
  function AdvanceBy(i: nat, n: nat, k: nat): (r: nat)
    requires n > 0
    ensures r < n || (k == 0 && r == i)
  {
    if k == 0 then i else NextIndex(AdvanceBy(i, n, k - 1), n)
  }

  /** `k` presses of next from slide `i` reach slide `(i + k) mod n`. */
  lemma {:induction false} AdvanceByIsModular(i: nat, n: nat, k: nat)
    requires i < n
    ensures AdvanceBy(i, n, k) == (i + k) % n
    decreases k
  {
    if k == 0 {
      UniqueDivMod(i, n, 0, i);
    } else {
      AdvanceByIsModular(i, n, k - 1);
      ModSucc(i + k - 1, n);
    }
  }

  /** `n` presses of next bring the carousel back to the slide it started on. */
  lemma FullCycle(i: nat, n: nat)
    requires i < n
    ensures AdvanceBy(i, n, n) == i
  {
    AdvanceByIsModular(i, n, n);
    UniqueDivMod(i + n, n, 1, i);
  }

  class HeroCarousel {
    const slideCount: nat
    var currentSlide: nat
    var isAutoPlaying: bool

    /** The index is a slide's, whenever there is a slide. */
    predicate Valid()
      reads this
    {
      slideCount == 0 || currentSlide < slideCount
    }

    constructor (slideCount: nat)
      ensures Valid() && this.slideCount == slideCount
      ensures currentSlide == 0 && isAutoPlaying
    {
      this.slideCount := slideCount;
      currentSlide := 0;
      isAutoPlaying := true;
    }

    /** Autoplay runs only while it is on and there is more than one slide. */
    predicate AutoplayRunning()
      reads this
    {
      isAutoPlaying && slideCount > 1
    }

    /** One five-second autoplay tick: advances only when autoplay is running. */
    method Tick()
      requires Valid()
      modifies this`currentSlide
      ensures Valid()
      ensures AutoplayRunning() ==> currentSlide == NextIndex(old(currentSlide), slideCount)
      ensures !AutoplayRunning() ==> currentSlide == old(currentSlide)
    {
      if isAutoPlaying && slideCount > 1 {
        currentSlide := (currentSlide + 1) % slideCount;
      }
    }

    /**
     * `nextSlide`. The handlers exist only when there is at least one slide: with none the
     * carousel renders nothing. Manual navigation pauses autoplay.
     */
    method Next()
      requires Valid() && slideCount > 0
      modifies this`currentSlide, this`isAutoPlaying
      ensures Valid() && !isAutoPlaying
      ensures currentSlide == NextIndex(old(currentSlide), slideCount)
    {
      currentSlide := (currentSlide + 1) % slideCount;
      isAutoPlaying := false;
    }

    /** `prevSlide`. */
    method Prev()
      requires Valid() && slideCount > 0
      modifies this`currentSlide, this`isAutoPlaying
      ensures Valid() && !isAutoPlaying
      ensures currentSlide == PrevIndex(old(currentSlide), slideCount)
    {
      currentSlide := (currentSlide - 1 + slideCount) % slideCount;
      isAutoPlaying := false;
    }

    /** `goToSlide(index)`, from the dot of slide `index`. */
    method GoTo(index: nat)
      requires Valid() && index < slideCount
      modifies this`currentSlide, this`isAutoPlaying
      ensures Valid() && !isAutoPlaying
      ensures currentSlide == index
    {
      currentSlide := index;
      isAutoPlaying := false;
    }

    /** The ten-second timeout after a manual move turns autoplay back on. */
    method ResumeAutoplay()
      modifies this`isAutoPlaying
      ensures isAutoPlaying
    {
      isAutoPlaying := true;
    }

    /** `index === currentSlide`: the dot shown as active. */
    predicate DotActive(index: nat)
      reads this
    {
      index == currentSlide
    }
  }
}
