/** The decision logic of the aircraft sidebar (`src/components/atc/sidebar.tsx`): the
    flight-phase classification and its label, the drag-to-expand touch handling on mobile,
    and the altitude label (flight level at and above 18000 ft). */
module Sidebar {
  import opened Wrappers
  import opened Text
  import opened JsValues

  /** `n > k` on a JavaScript number: false for NaN. */
  predicate Above(n: Num, k: int) {
    n.Fin? && n.value > k
  }

  /** `n < k` on a JavaScript number: false for NaN. */
  predicate Below(n: Num, k: int) {
    n.Fin? && n.value < k
  }

  /** `getFlightPhase(altAGL, Number(vspeed), flightPlan)`. Each phase is characterised in
      both directions; the thresholds are checked in the order ground, climb, descent. */
  function GetFlightPhase(altAGL: int, vspeed: Num, flightPlan: JsValue): (phase: string)
    ensures phase == "onGround" <==> altAGL < 100
    ensures phase == "climbing" <==> altAGL >= 100 && Above(vspeed, 200)
    ensures phase == "landing" <==>
      altAGL >= 100 && !Above(vspeed, 200) && Below(vspeed, -200) && Truthy(flightPlan) && altAGL < 5000
    ensures phase == "descending" <==>
      altAGL >= 100 && Below(vspeed, -200) && !(Truthy(flightPlan) && altAGL < 5000)
    ensures phase == "cruising" <==> !Above(vspeed, 200) && !Below(vspeed, -200) && altAGL > 5000
    ensures phase == "unknown" <==>
      100 <= altAGL <= 5000 && !Above(vspeed, 200) && !Below(vspeed, -200)
  {
    var isOnGround := altAGL < 100;
    var isClimbing := Above(vspeed, 200);
    var isDescending := Below(vspeed, -200);
    if isOnGround then "onGround"
    else if isClimbing then "climbing"
    else if isDescending then
      if Truthy(flightPlan) && altAGL < 5000 then "landing" else "descending"
    else if altAGL > 5000 then "cruising"
    else "unknown"
  }

  /** The six values `getFlightPhase` can return. */
  predicate IsPhase(s: string) {
    s == "onGround" || s == "climbing" || s == "landing" || s == "descending"
    || s == "cruising" || s == "unknown"
  }

  lemma PhaseIsOneOfSix(altAGL: int, vspeed: Num, flightPlan: JsValue)
    ensures IsPhase(GetFlightPhase(altAGL, vspeed, flightPlan))
  {
  }

  /** A vertical speed that is not a number (`Number("fast")`) never counts as climbing or
      descending. */
  lemma NaNVerticalSpeedIsLevel(altAGL: int, flightPlan: JsValue)
    requires altAGL >= 100
    ensures GetFlightPhase(altAGL, NaN, flightPlan) == (if altAGL > 5000 then "cruising" else "unknown")
  {
  }

  /** The stored default flight plan, an empty array, is truthy: a descending aircraft
      below 5000 ft that never filed a plan is shown as landing. */
  lemma EmptyPlanCountsAsFiled(altAGL: int, vspeed: int)
    requires 100 <= altAGL < 5000 && vspeed < -200
    ensures GetFlightPhase(altAGL, Fin(vspeed), Arr([])) == "landing"
    ensures GetFlightPhase(altAGL, Fin(vspeed), Str("")) == "descending"
  {
  }

  /** `getPhaseText`. */
  function GetPhaseText(phase: string): (text: string)
    ensures phase == "onGround" ==> text == "Ground"
    ensures phase == "climbing" ==> text == "Climbing"
    ensures phase == "cruising" ==> text == "Cruising"
    ensures phase == "descending" ==> text == "Descending"
    ensures phase == "landing" ==> text == "Landing"
    ensures text == "In Flight" <==>
      !(phase in ["onGround", "climbing", "cruising", "descending", "landing"])
  {
    if phase == "onGround" then "Ground"
    else if phase == "climbing" then "Climbing"
    else if phase == "cruising" then "Cruising"
    else if phase == "descending" then "Descending"
    else if phase == "landing" then "Landing"
    else "In Flight"
  }

  /** The sidebar shows "In Flight" exactly for the unclassified band: airborne, level, and
      at or below 5000 ft. */
  lemma InFlightIsTheUnknownPhase(altAGL: int, vspeed: Num, flightPlan: JsValue)
    ensures GetPhaseText(GetFlightPhase(altAGL, vspeed, flightPlan)) == "In Flight"
      <==> GetFlightPhase(altAGL, vspeed, flightPlan) == "unknown"
  {
    PhaseIsOneOfSix(altAGL, vspeed, flightPlan);
  }

  // ---------------------------------------------------------------- altitude label

  /** `aircraft.altMSL ?? aircraft.alt`. */
  function MslAltitude(altMSL: Option<int>, alt: int): (v: int)
    ensures altMSL.None? ==> v == alt
    ensures altMSL.Some? ==> v == altMSL.value
  {
    if altMSL.Some? then altMSL.value else alt
  }

  /** `Math.round(v / 100)`: the nearest whole hundred, halves rounded up. */
  function FlightLevel(v: int): (fl: int)
    ensures 100 * fl - 50 <= v < 100 * fl + 50
  {
    (v + 50) / 100
  }

  /** The altitude text: a flight level at and above 18000 ft, feet below. */
  function AltitudeLabel(v: int): (shown: string)
    ensures |shown| >= 2
    ensures shown[..2] == "FL" <==> v >= 18000
    ensures v >= 18000 ==> shown == "FL" + IntToString(FlightLevel(v))
    ensures v < 18000 ==> shown == IntToString(v) + " ft"
  {
    if v >= 18000 then "FL" + IntToString(FlightLevel(v))
    else
      var digits := IntToString(v);
      var shown := digits + " ft";
      assert shown[0] == digits[0] && (IsDigit(digits[0]) || digits[0] == '-');
      assert shown[..2][0] != 'F';
      shown
  }

  /** Flight levels shown start at 180, and each is the altitude to the nearest hundred. */
  lemma FlightLevelsFromTransition(v: int)
    requires v >= 18000
    ensures FlightLevel(v) >= 180
    ensures AltitudeLabel(v) == "FL" + IntToString(FlightLevel(v))
  {
  }

  // ---------------------------------------------------------------- touch dragging

  /** The drag state of the sidebar on a touch screen. */
  class DragState {
    const isMobile: bool
    var dragStart: Option<int>
    var dragOffset: int
    var isExpanded: bool

    constructor (isMobile: bool)
      ensures this.isMobile == isMobile
      ensures dragStart == None && dragOffset == 0 && !isExpanded
    {
      this.isMobile := isMobile;
      dragStart, dragOffset, isExpanded := None, 0, false;
    }

    /** `handleTouchStart`; `touchY` is the first touch's `clientY`, if there is a touch. */
    method TouchStart(touchY: Option<int>)
      modifies this
      ensures isMobile && touchY.Some? ==> dragStart == touchY
      ensures !(isMobile && touchY.Some?) ==> dragStart == old(dragStart)
      ensures dragOffset == old(dragOffset) && isExpanded == old(isExpanded)
    {
      if !isMobile || touchY.None? {
        return;
      }
      dragStart := touchY;
    }

    /** `handleTouchMove`: the offset is the distance from where the drag started. */
    method TouchMove(touchY: Option<int>)
      modifies this
      ensures isMobile && dragStart.Some? && touchY.Some? ==>
        dragOffset == touchY.value - dragStart.value
      ensures !(isMobile && dragStart.Some? && touchY.Some?) ==> dragOffset == old(dragOffset)
      ensures dragStart == old(dragStart) && isExpanded == old(isExpanded)
    {
      if !isMobile || dragStart.None? || touchY.None? {
        return;
      }
      var currentY := touchY.value;
      dragOffset := currentY - dragStart.value;
    }

    /** `handleTouchEnd`: dragging down more than 100 collapses, up more than 100 expands,
        anything shorter keeps the panel as it was; the drag is then forgotten. Without a
        drag in progress, or off mobile, nothing changes. */
    method TouchEnd()
      modifies this
      ensures !isMobile || old(dragStart).None? ==>
        dragStart == old(dragStart) && dragOffset == old(dragOffset) && isExpanded == old(isExpanded)
      ensures isMobile && old(dragStart).Some? ==> dragStart == None && dragOffset == 0
      ensures isMobile && old(dragStart).Some? && old(dragOffset) > 100 ==> !isExpanded
      ensures isMobile && old(dragStart).Some? && old(dragOffset) < -100 ==> isExpanded
      ensures isMobile && old(dragStart).Some? && -100 <= old(dragOffset) <= 100 ==>
        isExpanded == old(isExpanded)
    {
      if !isMobile || dragStart.None? {
        return;
      }
      if dragOffset > 100 {
        isExpanded := false;
      } else if dragOffset < -100 {
        isExpanded := true;
      }
      dragStart := None;
      dragOffset := 0;
    }
  }

  /** A swipe up of 150 px expands the panel, a 60 px swipe down leaves it expanded, and a
      150 px swipe down collapses it; on a desktop the same gestures do nothing. */
  method SwipeSequence() returns (afterUp: bool, afterShort: bool, afterDown: bool, desktop: bool)
    ensures afterUp && afterShort && !afterDown && !desktop
  {
    var d := new DragState(true);
    d.TouchStart(Some(400));
    d.TouchMove(Some(250));
    d.TouchEnd();
    afterUp := d.isExpanded;
    d.TouchStart(Some(250));
    d.TouchMove(Some(310));
    d.TouchEnd();
    afterShort := d.isExpanded;
    d.TouchStart(Some(250));
    d.TouchMove(Some(400));
    d.TouchEnd();
    afterDown := d.isExpanded;
    var pc := new DragState(false);
    pc.TouchStart(Some(400));
    pc.TouchMove(Some(250));
    pc.TouchEnd();
    desktop := pc.isExpanded;
  }
}
