/**
 * The seat-map selector: a theatre is chosen first, then a floor, and then that floor's seat
 * map is shown; the back buttons step back to the floor chooser or to the theatre chooser.
 */
module SeatMapSelector {
  import opened Wrappers
  import opened TheaterTypes

  /** The seat map drawn for a floor, or the "not ready yet" panel for any other number. */
  datatype FloorView = FirstFloorMap | SecondFloorMap | ThirdFloorMap | Preparing(floor: int)

  /** What the selector shows. */
  datatype Screen =
    | TheaterChooser
    | FloorChooser(theaterName: string)
    | FloorScreen(theaterName: string, floor: FloorNumber, view: FloorView)

  /** The map chosen for a floor number: 1F, 2F and 3F each have their own map. */
  function ViewFor(floor: int): (v: FloorView)
    ensures v == FirstFloorMap <==> floor == 1
    ensures v == SecondFloorMap <==> floor == 2
    ensures v == ThirdFloorMap <==> floor == 3
    ensures v.Preparing? <==> floor < 1 || 3 < floor
  {
    if floor == 1 then FirstFloorMap
    else if floor == 2 then SecondFloorMap
    else if floor == 3 then ThirdFloorMap
    else Preparing(floor)
  }

  /** The screen for the two selections. */
  function ScreenOf(theater: Option<Theater>, floor: Option<FloorNumber>): (s: Screen)
    ensures s.TheaterChooser? <==> theater.None?
    ensures s.FloorChooser? <==> theater.Some? && floor.None?
    ensures s.FloorChooser? ==> s.theaterName == theater.value.name
    ensures s.FloorScreen? <==> theater.Some? && floor.Some?
    ensures s.FloorScreen? ==> s.theaterName == theater.value.name && s.floor == floor.value
    ensures s.FloorScreen? ==> !s.view.Preparing?
  {
    if theater.None? then TheaterChooser
    else if floor.None? then FloorChooser(theater.value.name)
    else FloorScreen(theater.value.name, floor.value, ViewFor(floor.value))
  }

  /** The selector's state: the chosen theatre and floor. */
  class SelectorView {
    var theater: Option<Theater>
    var floor: Option<FloorNumber>

    /** A floor is only chosen once a theatre is. */
    predicate Valid()
      reads this
    {
      floor.Some? ==> theater.Some?
    }

    function Shown(): Screen
      reads this
    {
      ScreenOf(theater, floor)
    }

    /** The selector always starts on the theatre chooser. */
    constructor ()
      ensures theater.None? && floor.None? && Valid() && Shown() == TheaterChooser
    {
      theater := None;
      floor := None;
    }

    /** The theatre chooser's `onSelect`: the floor chooser for that theatre follows. */
    method SelectTheater(t: Theater)
      requires Shown().TheaterChooser? && Valid()
      modifies this
      ensures theater == Some(t) && floor == old(floor) && Valid()
      ensures Shown() == FloorChooser(t.name)
    {
      theater := Some(t);
    }

    /** The floor chooser's `onSelect`: that floor's map follows. */
    method SelectFloor(f: FloorNumber)
      requires Shown().FloorChooser?
      modifies this
      ensures floor == Some(f) && theater == old(theater) && Valid()
      ensures Shown() == FloorScreen(theater.value.name, f, ViewFor(f))
    {
      floor := Some(f);
    }

    /** `handleBackToTheaters`: both choices are cleared. */
    method BackToTheaters()
      modifies this
      ensures theater.None? && floor.None? && Valid() && Shown() == TheaterChooser
    {
      theater := None;
      floor := None;
    }

    /** `handleBackToFloors`: only the floor is cleared. */
    method BackToFloors()
      modifies this
      ensures theater == old(theater) && floor.None? && Valid()
      ensures old(theater).Some? ==> Shown() == FloorChooser(old(theater).value.name)
    {
      floor := None;
    }
  }

  /** The buttons a user can press, each only on the screen that draws it. */
  datatype Action = PickTheater(t: Theater) | PickFloor(f: FloorNumber) | BackToTheaterList | BackToFloorList

  datatype State = State(theater: Option<Theater>, floor: Option<FloorNumber>)

  /** Whether the current screen draws the button. */
  predicate Enabled(s: State, a: Action)
  {
    match a
    case PickTheater(_) => ScreenOf(s.theater, s.floor).TheaterChooser?
    case PickFloor(_) => ScreenOf(s.theater, s.floor).FloorChooser?
    case BackToTheaterList => ScreenOf(s.theater, s.floor).FloorChooser?
    case BackToFloorList => ScreenOf(s.theater, s.floor).FloorScreen?
  }

  /** One press of a drawn button; a button the screen does not draw cannot be pressed. */
  function Step(s: State, a: Action): State
  {
    if !Enabled(s, a) then s
    else match a
      case PickTheater(t) => s.(theater := Some(t))
      case PickFloor(f) => s.(floor := Some(f))
      case BackToTheaterList => State(None, None)
      case BackToFloorList => s.(floor := None)
  }

  /** The state after a run of presses from the start. */
  function Run(actions: seq<Action>): State
  {
    if actions == [] then State(None, None)
    else Step(Run(actions[..|actions| - 1]), actions[|actions| - 1])
  }

  /** Every reachable state has a theatre whenever it has a floor, so its screen is well defined. */
  lemma {:induction false} ReachableValid(actions: seq<Action>)
    ensures Run(actions).floor.Some? ==> Run(actions).theater.Some?
  {
    if actions != [] {
      ReachableValid(actions[..|actions| - 1]);
    }
  }

  /** A step from a consistent state keeps it consistent. */
  lemma StepKeepsValid(s: State, a: Action)
    requires s.floor.Some? ==> s.theater.Some?
    ensures Step(s, a).floor.Some? ==> Step(s, a).theater.Some?
  {
  }

  /** Back to the floors and picking the same floor again returns to the same map. */
  lemma BackAndPickAgain(s: State)
    requires ScreenOf(s.theater, s.floor).FloorScreen?
    ensures Step(Step(s, BackToFloorList), PickFloor(s.floor.value)) == s
  {
  }
}
