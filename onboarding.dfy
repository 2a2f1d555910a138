/** The slide counter of components/Onboarding.tsx: three slides, a Next button that advances to
    the last slide and then hands over to the caller. */
module Onboarding {

  /** One slide: the message keys of its title and description. */
  datatype Slide = Slide(titleKey: string, descKey: string)

  /** The `slides` array. */
  const Slides: seq<Slide> := [
    Slide("onboarding1Title", "onboarding1Desc"),
    Slide("onboarding2Title", "onboarding2Desc"),
    Slide("onboarding3Title", "onboarding3Desc")]

  /** `slides.length - 1`. */
  const LastSlide: int := |Slides| - 1

  /** What one press of the button does: the slide afterwards, and whether `onComplete` was called. */
  datatype Outcome = Outcome(slide: int, completed: bool)

  /** `handleNext` on a slide: advance while below the last slide, otherwise complete and stay. */
  function Next(slide: int): (o: Outcome)
    ensures 0 <= slide <= LastSlide ==> 0 <= o.slide <= LastSlide
    ensures o.completed <==> o.slide == slide
  {
    if slide < LastSlide then Outcome(slide + 1, false) else Outcome(slide, true)
  }

  /** The slide after `n` presses from `slide`, and whether any of them called `onComplete`. */
  function Presses(slide: int, n: nat): Outcome
    decreases n
  {
    if n == 0 then Outcome(slide, false)
    else
      var o := Next(slide);
      var rest := Presses(o.slide, n - 1);
      Outcome(rest.slide, o.completed || rest.completed)
  }

  /** From any slide, `n` presses move `n` slides on but never past the last one (from the first
      slide: slide `min(n, 2)`), and `onComplete` has been called exactly when there were more
      presses than slides left to advance through. */
  lemma {:induction false} PressesFromStart(slide: int, n: nat)
    requires 0 <= slide <= LastSlide
    ensures Presses(slide, n).slide == if slide + n <= LastSlide then slide + n else LastSlide
    ensures Presses(slide, n).completed <==> slide + n > LastSlide
    decreases n
  {
    if n > 0 {
      PressesFromStart(Next(slide).slide, n - 1);
    }
  }

  /** The button's label key: `getStarted` at the last slide, `continueWith` before it. */
  function ButtonLabel(slide: int): string
  {
    if slide == LastSlide then "getStarted" else "continueWith"
  }

  /** The label announces what the press will do: `getStarted` exactly when the next press
      calls `onComplete`. */
  lemma LabelAnnouncesCompletion(slide: int)
    requires 0 <= slide <= LastSlide
    ensures ButtonLabel(slide) == "getStarted" <==> Next(slide).completed
  {
  }

  /** The pagination dots: dot `i` is active when `i === currentSlide`. */
  function Dots(slide: int): (d: seq<bool>)
    ensures |d| == |Slides|
  {
    seq(|Slides|, i => i == slide)
  }

  /** On every reachable slide exactly one dot is active: the one of the current slide. */
  lemma ExactlyOneActiveDot(slide: int)
    requires 0 <= slide <= LastSlide
    ensures Dots(slide)[slide]
    ensures forall i, j :: 0 <= i < j < |Slides| ==> !(Dots(slide)[i] && Dots(slide)[j])
  {
  }

  /** The screen's state: the index of the slide shown. */
  class OnboardingScreen {
    var currentSlide: int

    ghost predicate Valid()
      reads this
    {
      0 <= currentSlide <= LastSlide
    }

    /** `useState(0)`. */
    constructor ()
      ensures Valid() && currentSlide == 0
    {
      currentSlide := 0;
    }

    /** `handleNext`; `completed` reports the call of `onComplete`. */
    method HandleNext() returns (completed: bool)
      requires Valid()
      modifies this
      ensures Valid()
      ensures Outcome(currentSlide, completed) == Next(old(currentSlide))
    {
      if currentSlide < |Slides| - 1 {
        currentSlide := currentSlide + 1;
        completed := false;
      } else {
        completed := true;
      }
    }
  }
}
