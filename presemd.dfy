/**
 * The navigation of the stand-alone `presemd` viewer: three fixed slides,
 * a transition to the neighbouring slide on each arrow key, faded between
 * the first two slides and slid everywhere else.
 */
module Presemd {
  import opened Wrappers

  /** The number of built-in slides. */
  const SlideCount: nat := 3

  datatype TransitionKind = Fade | SlideHorizontal

  datatype TransitionDirection = Forward | Backward

  /** A transition in progress; its start time lives outside the model. */
  datatype Transition = Transition(from: nat, to: nat, kind: TransitionKind, direction: TransitionDirection)

  /** `transition_kind_for`: a fade between the first two slides, a slide otherwise. */
  function TransitionKindFor(from: nat, to: nat): TransitionKind
  {
    var lo := if from <= to then from else to;
    var hi := if from <= to then to else from;
    if lo == 0 && hi == 1 then Fade else SlideHorizontal
  }

  /** The kind does not depend on the direction, and it is a fade exactly between slides 0 and 1. */
  lemma TransitionKindForFacts(a: nat, b: nat)
    ensures TransitionKindFor(a, b) == TransitionKindFor(b, a)
    ensures TransitionKindFor(a, b) == Fade <==> (a == 0 && b == 1) || (a == 1 && b == 0)
  {
  }

  /** `PresentationApp`, reduced to the fields navigation changes. */
  class PresentationApp {
    var currentSlide: nat
    var transition: Option<Transition>

    /**
     * The current slide exists, and a transition in progress leaves it for
     * a neighbouring slide, with the kind `transition_kind_for` gives.
     */
    ghost predicate Valid()
      reads this
    {
      && currentSlide < SlideCount
      && (transition.Some? ==>
            var t := transition.value;
            && t.from == currentSlide
            && t.to < SlideCount
            && (if t.direction == Forward then t.to == t.from + 1 else t.to + 1 == t.from)
            && t.kind == TransitionKindFor(t.from, t.to))
    }

    /** `PresentationApp::new`: the first slide, no transition. */
    constructor ()
      ensures Valid() && currentSlide == 0 && transition == None
    {
      currentSlide := 0;
      transition := None;
    }

    /**
     * `navigate`: nothing while a transition runs, forward on the last
     * slide or backward on the first; otherwise a transition from the
     * current slide to its neighbour in the requested direction.
     */
    method Navigate(direction: TransitionDirection)
      requires Valid()
      modifies this
      ensures Valid()
      ensures currentSlide == old(currentSlide)
      ensures old(transition).Some? ==> transition == old(transition)
      ensures old(transition).None? && direction == Forward ==>
        transition == if currentSlide + 1 < SlideCount
                      then Some(Transition(currentSlide, currentSlide + 1, TransitionKindFor(currentSlide, currentSlide + 1), Forward))
                      else None
      ensures old(transition).None? && direction == Backward ==>
        transition == if currentSlide > 0
                      then Some(Transition(currentSlide, currentSlide - 1, TransitionKindFor(currentSlide, currentSlide - 1), Backward))
                      else None
    {
      if transition.Some? {
        return;
      }
      var from, to;
      match direction {
        case Forward =>
          if currentSlide >= SlideCount - 1 {
            return;
          }
          from, to := currentSlide, currentSlide + 1;
        case Backward =>
          if currentSlide == 0 {
            return;
          }
          from, to := currentSlide, currentSlide - 1;
      }
      var kind := TransitionKindFor(from, to);
      transition := Some(Transition(from, to, kind, direction));
    }

    /**
     * The transition step of `update`: once the running transition's time
     * is up (`timeUp`), its target becomes the current slide and the transition ends.
     */
    method AdvanceTransition(timeUp: bool)
      requires Valid()
      modifies this
      ensures Valid()
      ensures old(transition).Some? && timeUp ==> currentSlide == old(transition).value.to && transition == None
      ensures !(old(transition).Some? && timeUp) ==> currentSlide == old(currentSlide) && transition == old(transition)
    {
      var finishedTo: Option<nat> := None;
      if transition.Some? {
        if timeUp {
          finishedTo := Some(transition.value.to);
        }
      }
      if finishedTo.Some? {
        currentSlide := finishedTo.value;
        transition := None;
      }
    }
  }

  /** Going forward, letting the transition finish, then going back returns to the starting slide. */
  method ForwardAndBack(app: PresentationApp)
    requires app.Valid() && app.transition.None? && app.currentSlide + 1 < SlideCount
    modifies app
    ensures app.Valid() && app.transition.None? && app.currentSlide == old(app.currentSlide)
  {
    app.Navigate(Forward);
    app.AdvanceTransition(true);
    app.Navigate(Backward);
    app.AdvanceTransition(true);
  }
}
