/**
 * The exit-intent popup: shown the first time the pointer leaves the page
 * through its top edge, closed by its close button or a click on the overlay,
 * and never shown again during the same mount.
 */
module ExitIntentPopup {

  datatype PopupState = PopupState(isVisible: bool, hasShown: bool)

  /** Both flags start false at mount. */
  const Initial := PopupState(false, false)

  /** `targetIsOverlay` says whether the click's target is the overlay element itself. */
  datatype PopupEvent = MouseLeave(clientY: int) | CloseClick | OverlayClick(targetIsOverlay: bool)

  /** The popup is only ever visible after it has been shown. */
  predicate Consistent(s: PopupState) {
    s.isVisible ==> s.hasShown
  }

  /** One handler run: `handleMouseLeave`, `handleClose` or `handleOverlayClick`. */
  function Step(s: PopupState, e: PopupEvent): (r: PopupState)
    ensures Consistent(s) ==> Consistent(r)
    ensures s.hasShown ==> r.hasShown
    ensures r.isVisible && !s.isVisible ==> e.MouseLeave? && e.clientY <= 0 && !s.hasShown
    ensures e.MouseLeave? && e.clientY <= 0 && !s.hasShown ==> r == PopupState(true, true)
    ensures e.MouseLeave? && (e.clientY > 0 || s.hasShown) ==> r == s
    ensures !e.MouseLeave? ==> r.hasShown == s.hasShown
    ensures e.CloseClick? || (e.OverlayClick? && e.targetIsOverlay) ==> !r.isVisible
    ensures e.OverlayClick? && !e.targetIsOverlay ==> r == s
  {
    match e
    case MouseLeave(y) => if y <= 0 && !s.hasShown then PopupState(true, true) else s
    case CloseClick => PopupState(false, s.hasShown)
    case OverlayClick(onOverlay) => if onOverlay then PopupState(false, s.hasShown) else s
  }

  /** The state after a run of events. */
  function Run(s: PopupState, events: seq<PopupEvent>): PopupState
    decreases |events|
  {
    if events == [] then s else Run(Step(s, events[0]), events[1..])
  }

  /** How many times the popup goes from hidden to visible during a run of events. */
  function Appearances(s: PopupState, events: seq<PopupEvent>): nat
    decreases |events|
  {
    if events == [] then 0
    else
      var t := Step(s, events[0]);
      (if !s.isVisible && t.isVisible then 1 else 0) + Appearances(t, events[1..])
  }

  /** From a consistent state the popup appears at most once more, and never once it has been shown. */
  lemma {:induction false} AppearsAtMostOnceFrom(s: PopupState, events: seq<PopupEvent>)
    requires Consistent(s)
    ensures Appearances(s, events) <= (if s.hasShown then 0 else 1)
    decreases |events|
  {
    if events != [] {
      var t := Step(s, events[0]);
      AppearsAtMostOnceFrom(t, events[1..]);
    }
  }

  /** Over any sequence of events after mount, the popup appears at most once. */
  lemma AppearsAtMostOnce(events: seq<PopupEvent>)
    ensures Appearances(Initial, events) <= 1
  {
    AppearsAtMostOnceFrom(Initial, events);
  }

  /** Once shown and closed, no event changes anything again. */
  lemma {:induction false} ClosedAfterShownIsFinal(events: seq<PopupEvent>)
    ensures Run(PopupState(false, true), events) == PopupState(false, true)
    decreases |events|
  {
    if events != [] {
      ClosedAfterShownIsFinal(events[1..]);
    }
  }

  /** What the component renders: nothing, or the dialog. */
  datatype View = Nothing | Dialog

  function Render(s: PopupState): (v: View)
    ensures v == Nothing <==> !s.isVisible
  {
    if s.isVisible then Dialog else Nothing
  }

  /** The component instance: one mount, with its two state flags. */
  class Popup {
    var isVisible: bool
    var hasShown: bool
    /** How many times this mount has made the popup visible. */
    ghost var appearances: nat

    ghost predicate Valid()
      reads this
    {
      Consistent(State()) && appearances == (if hasShown then 1 else 0)
    }

    function State(): PopupState
      reads this
    {
      PopupState(isVisible, hasShown)
    }

    constructor ()
      ensures Valid() && State() == Initial && appearances == 0
    {
      isVisible := false;
      hasShown := false;
      appearances := 0;
    }

    method HandleMouseLeave(clientY: int)
      requires Valid()
      modifies this
      ensures Valid() && appearances <= 1
      ensures State() == Step(old(State()), MouseLeave(clientY))
    {
      if clientY <= 0 && !hasShown {
        isVisible := true;
        hasShown := true;
        appearances := appearances + 1;
      }
    }

    method HandleClose()
      requires Valid()
      modifies this
      ensures Valid() && appearances == old(appearances)
      ensures State() == Step(old(State()), CloseClick)
    {
      isVisible := false;
    }

    method HandleOverlayClick(targetIsOverlay: bool)
      requires Valid()
      modifies this
      ensures Valid() && appearances == old(appearances)
      ensures State() == Step(old(State()), OverlayClick(targetIsOverlay))
    {
      if targetIsOverlay {
        HandleClose();
      }
    }
  }
}
