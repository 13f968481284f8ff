/** The state of the landing page's guided room tour. */
module TourStore {
  datatype TourSection = SectionNone | Living | Kitchen | Bath | Bed
  datatype CircleAnimation = CircleNone | Reveal | Collapse | Exit | Reentry

  class TourState {
    var isActivated: bool
    var currentSection: TourSection
    var isTransitioning: bool
    var circleAnimation: CircleAnimation
    var showCanvas: bool

    /** Not activated, no section, not transitioning, no circle animation, canvas hidden. */
    predicate IsInitial()
      reads this
    {
      !isActivated && currentSection == SectionNone && !isTransitioning
      && circleAnimation == CircleNone && !showCanvas
    }

    constructor()
      ensures IsInitial()
    {
      isActivated := false;
      currentSection := SectionNone;
      isTransitioning := false;
      circleAnimation := CircleNone;
      showCanvas := false;
    }

    /** `activate()`: the tour and its canvas on, the rest untouched. */
    method Activate()
      modifies this
      ensures isActivated && showCanvas
      ensures currentSection == old(currentSection) && isTransitioning == old(isTransitioning)
      ensures circleAnimation == old(circleAnimation)
    {
      isActivated := true;
      showCanvas := true;
    }

    /** `deactivate()`: everything back to the start except the transition flag. */
    method Deactivate()
      modifies this
      ensures !isActivated && !showCanvas && currentSection == SectionNone && circleAnimation == CircleNone
      ensures isTransitioning == old(isTransitioning)
    {
      isActivated := false;
      showCanvas := false;
      currentSection := SectionNone;
      circleAnimation := CircleNone;
    }

    /** `setCurrentSection(section)`. */
    method SetCurrentSection(section: TourSection)
      modifies this
      ensures currentSection == section
      ensures isActivated == old(isActivated) && isTransitioning == old(isTransitioning)
      ensures circleAnimation == old(circleAnimation) && showCanvas == old(showCanvas)
    {
      currentSection := section;
    }

    /** `setCircleAnimation(animation)`. */
    method SetCircleAnimation(animation: CircleAnimation)
      modifies this
      ensures circleAnimation == animation
      ensures isActivated == old(isActivated) && currentSection == old(currentSection)
      ensures isTransitioning == old(isTransitioning) && showCanvas == old(showCanvas)
    {
      circleAnimation := animation;
    }

    /** `setShowCanvas(show)`. */
    method SetShowCanvas(show: bool)
      modifies this
      ensures showCanvas == show
      ensures isActivated == old(isActivated) && currentSection == old(currentSection)
      ensures isTransitioning == old(isTransitioning) && circleAnimation == old(circleAnimation)
    {
      showCanvas := show;
    }

    /** `setIsTransitioning(transitioning)`. */
    method SetIsTransitioning(transitioning: bool)
      modifies this
      ensures isTransitioning == transitioning
      ensures isActivated == old(isActivated) && currentSection == old(currentSection)
      ensures circleAnimation == old(circleAnimation) && showCanvas == old(showCanvas)
    {
      isTransitioning := transitioning;
    }

    /** `reset()`: the initial state, from any state. */
    method Reset()
      modifies this
      ensures IsInitial()
    {
      isActivated := false;
      currentSection := SectionNone;
      isTransitioning := false;
      circleAnimation := CircleNone;
      showCanvas := false;
    }
  }

  /** Deactivating a tour that was never transitioning leaves it in the initial state. */
  method DeactivateSettled(t: TourState)
    requires !t.isTransitioning
    modifies t
    ensures t.IsInitial()
  {
    t.Deactivate();
  }
}
