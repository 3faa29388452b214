/**
 * The navigation state of the presentation window: the current slide, the
 * per-slide reveal steps, the slide transition in progress, the grid
 * overview and the start-up slide.
 */
module App {
  import opened Wrappers
  import Configuration

  /** `usize::saturating_sub`. */
  function SaturatingSub(a: nat, b: nat): (r: nat)
    ensures r <= a
    ensures r + b >= a && (a >= b ==> r + b == a)
  {
    if a >= b then a - b else 0
  }

  function Min(a: nat, b: nat): nat
  {
    if a <= b then a else b
  }

  // ---------------------------------------------------------------------
  // Transitions
  // ---------------------------------------------------------------------

  /** The kinds of slide transition; `NoTransition` is the source's `TransitionKind::None`. */
  datatype TransitionKind = SlideHorizontal | Fade | Spatial | NoTransition

  datatype TransitionDirection = Forward | Backward

  /** A slide transition in progress; its timing lives outside the model. */
  datatype ActiveTransition = ActiveTransition(from: nat, to: nat, kind: TransitionKind, direction: TransitionDirection)

  /** The transition kind after `cycle_transition`. */
  function Cycled(k: TransitionKind): TransitionKind
  {
    match k
    case SlideHorizontal => Fade
    case Fade => Spatial
    case Spatial => NoTransition
    case NoTransition => SlideHorizontal
  }

  /** The name `cycle_transition` shows for a transition kind. */
  function KindName(k: TransitionKind): string
  {
    match k
    case SlideHorizontal => "Slide"
    case Fade => "Fade"
    case Spatial => "Spatial"
    case NoTransition => "None"
  }

  /** Cycling visits all four kinds and returns to the start after four steps. */
  lemma CycleVisitsAll(k: TransitionKind, other: TransitionKind)
    ensures Cycled(Cycled(Cycled(Cycled(k)))) == k
    ensures other == k || other == Cycled(k) || other == Cycled(Cycled(k)) || other == Cycled(Cycled(Cycled(k)))
  {
  }

  // ---------------------------------------------------------------------
  // The grid overview
  // ---------------------------------------------------------------------

  /** The number of columns of the grid overview for a number of slides. */
  function GridColumns(count: nat): (cols: nat)
    ensures 2 <= cols <= 4
  {
    if count <= 4 then 2 else if count <= 9 then 3 else 4
  }

  /** With more slides the grid never gets fewer columns. */
  lemma GridColumnsMonotone(a: nat, b: nat)
    requires a <= b
    ensures GridColumns(a) <= GridColumns(b)
  {
  }

  /** The arrow keys of the grid overview. */
  datatype GridArrow = Right | Left | Down | Up

  /** The grid cell an arrow key selects. */
  function GridMove(arrow: GridArrow, selected: nat, cols: nat, count: nat): nat
  {
    match arrow
    case Right => Min(selected + 1, SaturatingSub(count, 1))
    case Left => SaturatingSub(selected, 1)
    case Down => Min(selected + cols, SaturatingSub(count, 1))
    case Up => SaturatingSub(selected, cols)
  }

  /**
   * An arrow key keeps the selection on a slide, moves it by one cell
   * (or one row) when there is room, and otherwise stops at the first or
   * last slide.
   */
  lemma GridMoveInRange(arrow: GridArrow, selected: nat, cols: nat, count: nat)
    requires selected < count
    ensures GridMove(arrow, selected, cols, count) < count
    ensures arrow == Right ==> GridMove(arrow, selected, cols, count) == if selected + 1 < count then selected + 1 else count - 1
    ensures arrow == Left ==> GridMove(arrow, selected, cols, count) == if selected > 0 then selected - 1 else 0
    ensures arrow == Down ==> GridMove(arrow, selected, cols, count) == if selected + cols < count then selected + cols else count - 1
    ensures arrow == Up ==> GridMove(arrow, selected, cols, count) == if selected >= cols then selected - cols else 0
  {
  }

  /** What the window shows: the current slide, the grid with a selection, or the animation into or out of the grid. */
  datatype AppMode =
    | Presentation
    | Grid(selected: nat)
    | OverviewTransition(selected: nat, entering: bool)

  // ---------------------------------------------------------------------
  // The start-up slide
  // ---------------------------------------------------------------------

  /**
   * The slide and mode `run` starts with: the `--overview` and `--slide N`
   * flags first, then the configured start mode; slide numbers count from
   * one, and the result is clamped to the last slide.
   */
  function InitialSlide(startOverview: bool, startSlide: Option<nat>, configStart: Option<string>, slideCount: nat)
    : (r: (nat, bool))
  {
    var (slide, overview) :=
      if startOverview then
        (match startSlide case Some(s) => SaturatingSub(s, 1) case None => 0, true)
      else if startSlide.Some? then
        (SaturatingSub(startSlide.value, 1), false)
      else
        match configStart
        case None => (0, false)
        case Some(mode) =>
          if mode == "overview" then (0, true)
          else if mode == "first" then (0, false)
          else
            match Configuration.ParseUsize(mode)
            case Some(num) => (SaturatingSub(num, 1), false)
            case None => (0, false);
    (Min(slide, SaturatingSub(slideCount, 1)), overview)
  }

  /**
   * The start-up slide exists, `--slide N` and a configured number `N`
   * open slide `N` when there is one and the last slide otherwise, and only
   * `--overview` or the configured `overview` open the grid.
   */
  lemma InitialSlideFacts(startOverview: bool, startSlide: Option<nat>, configStart: Option<string>, slideCount: nat)
    requires slideCount >= 1
    ensures InitialSlide(startOverview, startSlide, configStart, slideCount).0 < slideCount
    ensures InitialSlide(startOverview, startSlide, configStart, slideCount).1 <==>
      startOverview || (startSlide.None? && configStart == Some("overview"))
    ensures !startOverview && startSlide.Some? && 1 <= startSlide.value ==>
      InitialSlide(startOverview, startSlide, configStart, slideCount).0 == Min(startSlide.value - 1, slideCount - 1)
    ensures !startOverview && startSlide.None? && configStart.Some? && Configuration.ParseUsize(configStart.value).Some? ==>
      InitialSlide(startOverview, startSlide, configStart, slideCount).0
        == Min(SaturatingSub(Configuration.ParseUsize(configStart.value).value, 1), slideCount - 1)
  {
    Configuration.ParseUsizeRejectsWords();
  }

  // ---------------------------------------------------------------------
  // The window state
  // ---------------------------------------------------------------------

  /** `PresentationApp`, reduced to the fields navigation changes. */
  class PresentationApp {
    /** The number of steps each slide can reveal, fixed at start-up. */
    const maxSteps: seq<nat>
    var currentSlide: nat
    var mode: AppMode
    var defaultTransition: TransitionKind
    var transition: Option<ActiveTransition>
    var revealSteps: seq<nat>
    /** The text of the last notice shown, without its timing. */
    var toast: Option<string>

    function SlideCount(): nat
      reads this
    {
      |maxSteps|
    }

    /**
     * There is a slide, the current slide and every grid selection and
     * transition end are slides, and no slide has revealed more steps than it has.
     */
    ghost predicate Valid()
      reads this
    {
      && |maxSteps| >= 1
      && |revealSteps| == |maxSteps|
      && currentSlide < |maxSteps|
      && (forall i :: 0 <= i < |maxSteps| ==> revealSteps[i] <= maxSteps[i])
      && (transition.Some? ==> transition.value.from < |maxSteps| && transition.value.to < |maxSteps|)
      && (mode.Grid? ==> mode.selected < |maxSteps|)
      && (mode.OverviewTransition? ==> mode.selected < |maxSteps|)
    }

    /** `PresentationApp::new`: the first slide, nothing revealed, no transition. */
    constructor (maxSteps: seq<nat>, defaultTransition: TransitionKind)
      requires |maxSteps| >= 1
      ensures Valid()
      ensures this.maxSteps == maxSteps && this.defaultTransition == defaultTransition
      ensures currentSlide == 0 && mode == Presentation && transition == None && toast == None
      ensures revealSteps == seq(|maxSteps|, _ => 0)
    {
      this.maxSteps := maxSteps;
      this.defaultTransition := defaultTransition;
      currentSlide := 0;
      mode := Presentation;
      transition := None;
      revealSteps := seq(|maxSteps|, _ => 0);
      toast := None;
    }

    /** The start-up slide and mode `run` installs after construction. */
    method Launch(initialSlide: nat, initialOverview: bool)
      requires Valid() && initialSlide < SlideCount()
      modifies this
      ensures Valid()
      ensures currentSlide == initialSlide
      ensures mode == if initialOverview then Grid(initialSlide) else old(mode)
      ensures transition == old(transition) && revealSteps == old(revealSteps)
      ensures defaultTransition == old(defaultTransition) && toast == old(toast)
    {
      currentSlide := initialSlide;
      if initialOverview {
        mode := Grid(initialSlide);
      }
    }

    /**
     * `navigate_forward`: nothing while a transition runs; otherwise reveal
     * one more step of the current slide if it has one left, or else start
     * a forward transition to the next slide unless this is the last one.
     */
    method NavigateForward()
      requires Valid()
      modifies this
      ensures Valid()
      ensures currentSlide == old(currentSlide) && mode == old(mode)
      ensures defaultTransition == old(defaultTransition) && toast == old(toast)
      ensures old(transition).Some? ==> transition == old(transition) && revealSteps == old(revealSteps)
      ensures old(transition).None? && old(revealSteps[currentSlide]) < maxSteps[currentSlide] ==>
        revealSteps == old(revealSteps)[currentSlide := old(revealSteps[currentSlide]) + 1] && transition == None
      ensures old(transition).None? && old(revealSteps[currentSlide]) == maxSteps[currentSlide] ==>
        revealSteps == old(revealSteps) &&
        transition == (if currentSlide + 1 < SlideCount()
                       then Some(ActiveTransition(currentSlide, currentSlide + 1, defaultTransition, Forward))
                       else None)
    {
      if transition.Some? {
        return;
      }
      var idx := currentSlide;
      if revealSteps[idx] < maxSteps[idx] {
        revealSteps := revealSteps[idx := revealSteps[idx] + 1];
        return;
      }
      if idx >= SaturatingSub(SlideCount(), 1) {
        return;
      }
      transition := Some(ActiveTransition(idx, idx + 1, defaultTransition, Forward));
    }

    /**
     * `navigate_backward`: nothing while a transition runs; otherwise hide
     * one revealed step of the current slide, or else, unless this is the
     * first slide, reveal the previous slide fully and start a backward
     * transition to it.
     */
    method NavigateBackward()
      requires Valid()
      modifies this
      ensures Valid()
      ensures currentSlide == old(currentSlide) && mode == old(mode)
      ensures defaultTransition == old(defaultTransition) && toast == old(toast)
      ensures old(transition).Some? ==> transition == old(transition) && revealSteps == old(revealSteps)
      ensures old(transition).None? && old(revealSteps[currentSlide]) > 0 ==>
        revealSteps == old(revealSteps)[currentSlide := old(revealSteps[currentSlide]) - 1] && transition == None
      ensures old(transition).None? && old(revealSteps[currentSlide]) == 0 && currentSlide == 0 ==>
        revealSteps == old(revealSteps) && transition == None
      ensures old(transition).None? && old(revealSteps[currentSlide]) == 0 && currentSlide > 0 ==>
        revealSteps == old(revealSteps)[currentSlide - 1 := maxSteps[currentSlide - 1]] &&
        transition == Some(ActiveTransition(currentSlide, currentSlide - 1, defaultTransition, Backward))
    {
      if transition.Some? {
        return;
      }
      var idx := currentSlide;
      if revealSteps[idx] > 0 {
        revealSteps := revealSteps[idx := revealSteps[idx] - 1];
        return;
      }
      if idx == 0 {
        return;
      }
      var prev := idx - 1;
      revealSteps := revealSteps[prev := maxSteps[prev]];
      transition := Some(ActiveTransition(idx, prev, defaultTransition, Backward));
    }

    /** `jump_to_slide`: go straight to a slide that exists, unless a transition runs. */
    method JumpToSlide(index: nat)
      requires Valid()
      modifies this
      ensures Valid()
      ensures currentSlide == if index < SlideCount() && old(transition).None? then index else old(currentSlide)
      ensures mode == old(mode) && transition == old(transition) && revealSteps == old(revealSteps)
      ensures defaultTransition == old(defaultTransition) && toast == old(toast)
    {
      if index < SlideCount() && transition.None? {
        currentSlide := index;
      }
    }

    /** `cycle_transition`: the next default transition kind, announced by name. */
    method CycleTransition()
      requires Valid()
      modifies this
      ensures Valid()
      ensures defaultTransition == Cycled(old(defaultTransition))
      ensures toast == Some("Transition: " + KindName(defaultTransition))
      ensures currentSlide == old(currentSlide) && mode == old(mode)
      ensures transition == old(transition) && revealSteps == old(revealSteps)
    {
      defaultTransition := Cycled(defaultTransition);
      toast := Some("Transition: " + KindName(defaultTransition));
    }

    /** A grid arrow key: the selection moves as `GridMove` says, with the grid's column count. */
    method GridArrowKey(arrow: GridArrow)
      requires Valid() && mode.Grid?
      modifies this
      ensures Valid()
      ensures mode == Grid(GridMove(arrow, old(mode).selected, GridColumns(SlideCount()), SlideCount()))
      ensures currentSlide == old(currentSlide) && transition == old(transition) && revealSteps == old(revealSteps)
      ensures defaultTransition == old(defaultTransition) && toast == old(toast)
    {
      var cols := GridColumns(SlideCount());
      var count := SlideCount();
      GridMoveInRange(arrow, mode.selected, cols, count);
      mode := Grid(GridMove(arrow, mode.selected, cols, count));
    }

    /** `G` in the presentation: start the animation into the grid at the current slide, unless a transition runs. */
    method EnterOverview()
      requires Valid() && mode == Presentation
      modifies this
      ensures Valid()
      ensures mode == if old(transition).None? then OverviewTransition(currentSlide, true) else Presentation
      ensures currentSlide == old(currentSlide) && transition == old(transition) && revealSteps == old(revealSteps)
      ensures defaultTransition == old(defaultTransition) && toast == old(toast)
    {
      if transition.None? {
        mode := OverviewTransition(currentSlide, true);
      }
    }

    /** Enter, Space or `E` in the grid: start the animation out of the grid towards the selected slide. */
    method LeaveOverview()
      requires Valid() && mode.Grid?
      modifies this
      ensures Valid()
      ensures mode == OverviewTransition(old(mode).selected, false)
      ensures currentSlide == old(currentSlide) && transition == old(transition) && revealSteps == old(revealSteps)
      ensures defaultTransition == old(defaultTransition) && toast == old(toast)
    {
      mode := OverviewTransition(mode.selected, false);
    }

    /** The slide transition is complete: its target becomes the current slide and the transition ends. */
    method FinishTransition()
      requires Valid() && transition.Some?
      modifies this
      ensures Valid()
      ensures currentSlide == old(transition).value.to && transition == None
      ensures mode == old(mode) && revealSteps == old(revealSteps)
      ensures defaultTransition == old(defaultTransition) && toast == old(toast)
    {
      var to := transition.value.to;
      transition := None;
      currentSlide := to;
    }

    /** The grid animation is complete: entering shows the grid, leaving shows the selected slide. */
    method FinishOverviewTransition()
      requires Valid() && mode.OverviewTransition?
      modifies this
      ensures Valid()
      ensures old(mode).entering ==> mode == Grid(old(mode).selected) && currentSlide == old(currentSlide)
      ensures !old(mode).entering ==> mode == Presentation && currentSlide == old(mode).selected
      ensures transition == old(transition) && revealSteps == old(revealSteps)
      ensures defaultTransition == old(defaultTransition) && toast == old(toast)
    {
      if mode.entering {
        mode := Grid(mode.selected);
      } else {
        currentSlide := mode.selected;
        mode := Presentation;
      }
    }
  }

  /** Forward navigation with nothing left to reveal on the last slide changes nothing. */
  method ForwardAtLastSlide(app: PresentationApp)
    requires app.Valid() && app.transition.None? && app.currentSlide == app.SlideCount() - 1
    requires app.revealSteps[app.currentSlide] == app.maxSteps[app.currentSlide]
    modifies app
    ensures app.currentSlide == old(app.currentSlide) && app.transition == None && app.revealSteps == old(app.revealSteps)
  {
    app.NavigateForward();
  }

  /** A forward step followed by a backward step on the same slide hides again what was revealed. */
  method ForwardThenBackward(app: PresentationApp)
    requires app.Valid() && app.transition.None? && app.revealSteps[app.currentSlide] < app.maxSteps[app.currentSlide]
    modifies app
    ensures app.Valid() && app.revealSteps == old(app.revealSteps) && app.transition == None
    ensures app.currentSlide == old(app.currentSlide)
  {
    app.NavigateForward();
    app.NavigateBackward();
  }
}
