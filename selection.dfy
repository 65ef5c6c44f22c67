/** The selection state of the main page: which spot is selected, the index
    of the current card in the sorted list, and whether the navigation
    dialog is open. List cards, map markers, the spots menu, the next and
    previous buttons and the "park now" button all change it. */
module Selection {
  import opened Spots
  import opened DistanceSort

  datatype SelectionState = SelectionState(
    selectedSpot: Option<ParkingSpot>,
    currentIndex: int,
    isNavigationOpen: bool
  )

  /** Nothing selected, index 0, dialog closed. */
  const Initial := SelectionState(None, 0, false)

  /** A user event on the page. `SelectAt(i)` is a click on the i-th card of
      the list or on the i-th marker of the map: both call the same handler
      with the spot at that position. */
  datatype Action =
    | SelectAt(index: int)
    | MenuSelect(spot: ParkingSpot)
    | Next
    | Prev
    | ParkNow
    | CloseNavigation

  /** `findIndex` by id: the first position holding a spot with this id, or
      -1 when there is none. */
  function FindIndex(spots: seq<ParkingSpot>, id: int): (r: int)
    ensures -1 <= r < |spots|
    ensures r == -1 <==> forall i :: 0 <= i < |spots| ==> spots[i].id != id
    ensures r >= 0 ==> spots[r].id == id && forall i :: 0 <= i < r ==> spots[i].id != id
  {
    if spots == [] then -1
    else if spots[0].id == id then 0
    else
      var k := FindIndex(spots[1..], id);
      if k == -1 then -1 else k + 1
  }

  /** `isSelected`: the card or marker of `spot` is highlighted. */
  predicate IsSelected(s: SelectionState, spot: ParkingSpot) {
    s.selectedSpot.Some? && s.selectedSpot.value.id == spot.id
  }

  /** The disabled conditions of the previous, next and "park now" buttons. */
  predicate PrevDisabled(s: SelectionState) {
    s.currentIndex == 0
  }

  predicate NextDisabled(spots: seq<ParkingSpot>, s: SelectionState) {
    s.currentIndex >= |spots| - 1
  }

  predicate ParkNowDisabled(s: SelectionState) {
    s.selectedSpot.None?
  }

  /** What every reachable state satisfies, even one reached through a menu
      selection whose id is not in the list: the index is -1 or a position
      of the list (or the initial 0 of an empty list). */
  predicate IndexWellFormed(spots: seq<ParkingSpot>, s: SelectionState) {
    -1 <= s.currentIndex && (s.currentIndex < |spots| || s.currentIndex == 0)
  }

  /** The actions the page can produce: card and marker clicks carry an
      index of the list, and the menu offers the spots of the list. */
  predicate FromList(spots: seq<ParkingSpot>, a: Action) {
    match a
    case SelectAt(i) => 0 <= i < |spots|
    case MenuSelect(spot) => spot in spots
    case _ => true
  }

  /** `handleSpotSelect(spot, index)` on the state. */
  function SelectSpot(s: SelectionState, spot: ParkingSpot, index: int): SelectionState {
    s.(selectedSpot := Some(spot), currentIndex := index)
  }

  /** The page's reaction to one action. */
  function Step(spots: seq<ParkingSpot>, s: SelectionState, a: Action): (r: SelectionState)
    requires IndexWellFormed(spots, s)
    requires a.SelectAt? ==> 0 <= a.index < |spots|
    ensures IndexWellFormed(spots, r)
  {
    match a
    case SelectAt(i) => SelectSpot(s, spots[i], i)
    case MenuSelect(spot) => SelectSpot(s, spot, FindIndex(spots, spot.id))
    case Next =>
      if s.currentIndex < |spots| - 1
      then SelectSpot(s, spots[s.currentIndex + 1], s.currentIndex + 1)
      else s
    case Prev =>
      if s.currentIndex > 0
      then SelectSpot(s, spots[s.currentIndex - 1], s.currentIndex - 1)
      else s
    case ParkNow =>
      if s.selectedSpot.None? then s else s.(isNavigationOpen := true)
    case CloseNavigation =>
      s.(isNavigationOpen := false)
  }

  /** The state after a sequence of actions from the page. */
  function Run(spots: seq<ParkingSpot>, s: SelectionState, actions: seq<Action>): (r: SelectionState)
    requires IndexWellFormed(spots, s)
    requires forall k :: 0 <= k < |actions| ==> FromList(spots, actions[k])
    ensures IndexWellFormed(spots, r)
    decreases |actions|
  {
    if actions == [] then s
    else
      assert FromList(spots, actions[0]);
      Run(spots, Step(spots, s, actions[0]), actions[1..])
  }

  /** The index is a position of the list. */
  predicate InBounds(spots: seq<ParkingSpot>, s: SelectionState) {
    0 <= s.currentIndex < |spots|
  }

  /** List and map agree: once a spot is selected, the current index points
      at a spot with the selected id. */
  predicate Synced(spots: seq<ParkingSpot>, s: SelectionState) {
    s.selectedSpot.Some? ==>
      InBounds(spots, s) && spots[s.currentIndex].id == s.selectedSpot.value.id
  }

  /** Selecting from the menu sets the index to the first position holding
      the chosen id, and to -1 when the id is not in the list. */
  lemma MenuSelectIndex(spots: seq<ParkingSpot>, s: SelectionState, spot: ParkingSpot)
    requires IndexWellFormed(spots, s)
    ensures var r := Step(spots, s, MenuSelect(spot));
      && r.selectedSpot == Some(spot)
      && r.isNavigationOpen == s.isNavigationOpen
      && (r.currentIndex == -1 <==> forall i :: 0 <= i < |spots| ==> spots[i].id != spot.id)
      && (r.currentIndex >= 0 ==>
            spots[r.currentIndex].id == spot.id
            && forall i :: 0 <= i < r.currentIndex ==> spots[i].id != spot.id)
  {
  }

  /** "Next" is disabled exactly when pressing it would change nothing; when
      enabled it selects the following spot and raises the index by one. */
  lemma NextDisabledIffNoOp(spots: seq<ParkingSpot>, s: SelectionState)
    requires IndexWellFormed(spots, s)
    ensures NextDisabled(spots, s) <==> Step(spots, s, Next) == s
    ensures !NextDisabled(spots, s) ==>
      var r := Step(spots, s, Next);
      && r.currentIndex == s.currentIndex + 1
      && r.selectedSpot == Some(spots[s.currentIndex + 1])
      && r.isNavigationOpen == s.isNavigationOpen
  {
  }

  /** "Previous" is disabled exactly when pressing it would change nothing,
      for every index of the list; when enabled it selects the preceding spot
      and lowers the index by one. At index -1 (a menu choice missing from
      the list) the button stays enabled although it does nothing. */
  lemma PrevDisabledIffNoOp(spots: seq<ParkingSpot>, s: SelectionState)
    requires IndexWellFormed(spots, s)
    ensures PrevDisabled(s) ==> Step(spots, s, Prev) == s
    ensures s.currentIndex >= 0 ==> (PrevDisabled(s) <==> Step(spots, s, Prev) == s)
    ensures s.currentIndex == -1 ==> !PrevDisabled(s) && Step(spots, s, Prev) == s
    ensures s.currentIndex > 0 ==>
      var r := Step(spots, s, Prev);
      && r.currentIndex == s.currentIndex - 1
      && r.selectedSpot == Some(spots[s.currentIndex - 1])
      && r.isNavigationOpen == s.isNavigationOpen
  {
  }

  /** "Park now" opens navigation only with a spot selected; without one the
      state is unchanged, and that is exactly when the button is disabled. */
  lemma ParkNowOpensOnlyWithSelection(spots: seq<ParkingSpot>, s: SelectionState)
    requires IndexWellFormed(spots, s)
    ensures ParkNowDisabled(s) ==> Step(spots, s, ParkNow) == s
    ensures !ParkNowDisabled(s) ==>
      Step(spots, s, ParkNow) == s.(isNavigationOpen := true)
  {
  }

  /** One action from the page keeps the index in bounds and keeps list and
      map pointing at the same spot. */
  lemma StepKeepsSynced(spots: seq<ParkingSpot>, s: SelectionState, a: Action)
    requires InBounds(spots, s) && Synced(spots, s)
    requires FromList(spots, a)
    ensures InBounds(spots, Step(spots, s, a)) && Synced(spots, Step(spots, s, a))
  {
    match a
    case MenuSelect(spot) =>
      var i :| 0 <= i < |spots| && spots[i] == spot;
      assert spots[i].id == spot.id;
    case _ =>
  }

  /** Any sequence of card, marker, menu, next, previous, park-now and close
      actions keeps the index in bounds and the list and map in step. */
  lemma {:induction false} RunKeepsSynced(spots: seq<ParkingSpot>, s: SelectionState, actions: seq<Action>)
    requires InBounds(spots, s) && Synced(spots, s)
    requires forall k :: 0 <= k < |actions| ==> FromList(spots, actions[k])
    ensures InBounds(spots, Run(spots, s, actions)) && Synced(spots, Run(spots, s, actions))
    decreases |actions|
  {
    if actions != [] {
      StepKeepsSynced(spots, s, actions[0]);
      RunKeepsSynced(spots, Step(spots, s, actions[0]), actions[1..]);
    }
  }

  /** From the page's initial state over a non-empty list, every reachable
      state has its index in bounds and, once a spot is selected, the card
      at the index shows that spot. */
  lemma ReachableStatesAreSynced(spots: seq<ParkingSpot>, actions: seq<Action>)
    requires |spots| > 0
    requires forall k :: 0 <= k < |actions| ==> FromList(spots, actions[k])
    ensures var r := Run(spots, Initial, actions);
      && 0 <= r.currentIndex < |spots|
      && (r.selectedSpot.Some? ==> spots[r.currentIndex].id == r.selectedSpot.value.id)
  {
    RunKeepsSynced(spots, Initial, actions);
  }

  /** With distinct ids, a synced selection highlights exactly one card: the
      one at the current index. */
  lemma HighlightIsAtCurrentIndex(spots: seq<ParkingSpot>, s: SelectionState, i: int)
    requires forall p, q :: 0 <= p < q < |spots| ==> spots[p].id != spots[q].id
    requires Synced(spots, s) && s.selectedSpot.Some?
    requires 0 <= i < |spots|
    ensures IsSelected(s, spots[i]) <==> i == s.currentIndex
  {
  }

  /** The page's selection state. `sortedSpots` is computed once, when the
      page is first rendered. */
  class App {
    const sortedSpots: seq<ParkingSpot>
    var selectedSpot: Option<ParkingSpot>
    var currentIndex: int
    var isNavigationOpen: bool

    ghost function State(): SelectionState
      reads this
    {
      SelectionState(selectedSpot, currentIndex, isNavigationOpen)
    }

    ghost predicate Valid()
      reads this
    {
      IndexWellFormed(sortedSpots, State())
    }

    constructor (spots: seq<ParkingSpot>)
      requires AllNumeric(spots)
      ensures sortedSpots == SortByDistance(spots)
      ensures State() == Initial && Valid()
    {
      sortedSpots := SortByDistance(spots);
      selectedSpot := None;
      currentIndex := 0;
      isNavigationOpen := false;
    }

    /** `handleSpotSelect`: scrolling the card into view, the toast and
        panning the map are not modelled. */
    method HandleSpotSelect(spot: ParkingSpot, index: int)
      modifies this
      ensures selectedSpot == Some(spot) && currentIndex == index
      ensures isNavigationOpen == old(isNavigationOpen)
      ensures State() == SelectSpot(old(State()), spot, index)
    {
      selectedSpot := Some(spot);
      currentIndex := index;
    }

    /** Click on the card or marker at `index`. */
    method OnSpotClick(index: int)
      requires Valid() && 0 <= index < |sortedSpots|
      modifies this
      ensures Valid() && State() == Step(sortedSpots, old(State()), SelectAt(index))
    {
      HandleSpotSelect(sortedSpots[index], index);
    }

    /** A spot chosen in the spots menu. */
    method OnMenuSelect(spot: ParkingSpot)
      requires Valid()
      modifies this
      ensures Valid() && State() == Step(sortedSpots, old(State()), MenuSelect(spot))
    {
      HandleSpotSelect(spot, FindIndex(sortedSpots, spot.id));
    }

    method ScrollNext()
      requires Valid()
      modifies this
      ensures Valid() && State() == Step(sortedSpots, old(State()), Next)
    {
      if currentIndex < |sortedSpots| - 1 {
        HandleSpotSelect(sortedSpots[currentIndex + 1], currentIndex + 1);
      }
    }

    method ScrollPrev()
      requires Valid()
      modifies this
      ensures Valid() && State() == Step(sortedSpots, old(State()), Prev)
    {
      if currentIndex > 0 {
        HandleSpotSelect(sortedSpots[currentIndex - 1], currentIndex - 1);
      }
    }

    /** `handleParkNow`: the error toast for a missing selection is not
        modelled. */
    method HandleParkNow()
      requires Valid()
      modifies this
      ensures Valid() && State() == Step(sortedSpots, old(State()), ParkNow)
    {
      if selectedSpot.None? {
        return;
      }
      isNavigationOpen := true;
    }

    /** The dialog's `onClose`. */
    method CloseNavigation()
      requires Valid()
      modifies this
      ensures Valid() && State() == Step(sortedSpots, old(State()), Action.CloseNavigation)
    {
      isNavigationOpen := false;
    }
  }
}
