/** The three-slide onboarding carousel: its slide index, slide direction and progress bar. */
module OnboardingCarousel {

  const SlideTitles := ["Your Building is the Server", "Your Unit is the Channel", "Secure Community"]

  /** `slides.length`. */
  const SlideCount := |SlideTitles|

  /** The width of the progress bar, in percent, on slide `i`. */
  function Progress(i: nat): (r: real)
    ensures r == ((i + 1) as real) * 100.0 / (SlideCount as real)
    ensures i < SlideCount ==> 0.0 < r <= 100.0
    ensures i == SlideCount - 1 ==> r == 100.0
  {
    ((i + 1) as real) / (SlideCount as real) * 100.0
  }

  /** The bar grows strictly from slide to slide. */
  lemma ProgressIncreasing(i: nat, j: nat)
    requires i < j
    ensures Progress(i) < Progress(j)
  {
  }

  class Carousel {
    var currentSlide: int
    /** 1 after moving forward, -1 after moving back, 0 before any move. */
    var direction: int

    /** The index names an existing slide and the direction is one of the three values. */
    predicate Valid()
      reads this
    {
      0 <= currentSlide < SlideCount && -1 <= direction <= 1
    }

    constructor ()
      ensures currentSlide == 0 && direction == 0
      ensures Valid()
    {
      currentSlide := 0;
      direction := 0;
    }

    /** The back button is shown on every slide but the first. */
    predicate BackShown()
      reads this
    {
      currentSlide > 0
    }

    /** `nextSlide` (the Continue button): advance, or report completion on the last slide. */
    method NextSlide() returns (complete: bool)
      modifies this
      ensures old(currentSlide) < SlideCount - 1 ==> currentSlide == old(currentSlide) + 1 && direction == 1 && !complete
      ensures old(currentSlide) >= SlideCount - 1 ==> complete && unchanged(this)
      ensures old(Valid()) ==> Valid()
    {
      if currentSlide < SlideCount - 1 {
        direction := 1;
        currentSlide := currentSlide + 1;
        complete := false;
      } else {
        complete := true;
      }
    }

    /** `prevSlide` (the back button): go back, doing nothing on the first slide. */
    method PrevSlide()
      modifies this
      ensures old(currentSlide) > 0 ==> currentSlide == old(currentSlide) - 1 && direction == -1
      ensures old(currentSlide) <= 0 ==> unchanged(this)
      ensures old(Valid()) ==> Valid()
    {
      if currentSlide > 0 {
        direction := -1;
        currentSlide := currentSlide - 1;
      }
    }
  }
}
