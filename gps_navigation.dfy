/**
 * The state of the GPS navigation panel: its `useState` fields, the event
 * handlers that update them, and the search effect that React runs after a
 * handler has changed `searchQuery`.
 *
 * `Session` is a snapshot of the fields and the functions over it say what
 * each handler does to a snapshot; `Panel` holds the same fields as mutable
 * state and its methods update them step by step, each proved to agree with
 * the function of the same handler.
 */
module GpsNavigation {
  import opened Wrappers
  import opened JsString
  import opened LocationSearch
  import opened StepCursor

  /** The three independent checkboxes under "Route Options". */
  datatype RouteOptions = RouteOptions(avoidTolls: bool, avoidHighways: bool, fastestRoute: bool)

  const DefaultRouteOptions := RouteOptions(false, false, true)

  /** The place the mock location timer reports. */
  const YourLocation := Place("current", "Your Location", "Current GPS Position", Coordinates(28.6139, 77.2090))

  /** A snapshot of the panel's state fields (the map type selector is left out). */
  datatype Session = Session(
    currentLocation: Option<Place>,
    destination: Option<Place>,
    searchQuery: string,
    searchResults: seq<Place>,
    showSearchResults: bool,
    isNavigating: bool,
    currentStepIndex: int,
    routeOptions: RouteOptions)

  /** The state on mount; the search effect's first run on the empty query changes nothing. */
  const Initial := Session(None, None, "", [], false, false, 0, DefaultRouteOptions)

  /** What holds between handlers: the index is a valid step, the results are those the
      search effect computed for the current query, and the dropdown is only ever shown
      for a query that is not blank. */
  predicate Inv(s: Session)
  {
    0 <= s.currentStepIndex < StepCount
    && SearchConsistent(s.searchQuery, s.searchResults, s.showSearchResults)
  }

  /** The results are those the search effect computed for the query, and the dropdown is
      only ever shown for a query that is not blank. */
  predicate SearchConsistent(query: string, results: seq<Place>, show: bool)
  {
    results == SearchEffect(query).0 && (show ==> !IsBlank(query))
  }

  /** `setSearchQuery(q)` followed by the search effect, which React runs only when the
      new query differs from the old one. */
  function CommitSearchQuery(s: Session, q: string): Session
  {
    if q == s.searchQuery then s
    else
      var (results, show) := SearchEffect(q);
      s.(searchQuery := q, searchResults := results, showSearchResults := show)
  }

  /** The mock location timer firing. */
  function Locate(s: Session): Session
  {
    s.(currentLocation := Some(YourLocation))
  }

  /** The search box's `onChange`. */
  function TypeQuery(s: Session, text: string): Session
  {
    CommitSearchQuery(s, text)
  }

  /** `handleDestinationSelect(location)`. */
  function SelectDestination(s: Session, p: Place): Session
  {
    CommitSearchQuery(s.(destination := Some(p), showSearchResults := false), p.name)
  }

  /** `handleStartNavigation`. */
  function StartNavigation(s: Session): Session
  {
    if s.destination.Some? then s.(isNavigating := true, currentStepIndex := 0) else s
  }

  /** `handleStopNavigation`. */
  function StopNavigation(s: Session): Session
  {
    s.(isNavigating := false, currentStepIndex := 0)
  }

  /** `handleNextStep`. */
  function NextStep(s: Session): Session
  {
    s.(currentStepIndex := NextIndex(s.currentStepIndex, StepCount))
  }

  /** The X button in the search box. */
  function ClearSearch(s: Session): Session
  {
    CommitSearchQuery(s.(destination := None), "")
  }

  /** The three checkboxes' `onChange`, each given the box's new `checked` value. */
  function SetFastestRoute(s: Session, checked: bool): Session
  {
    s.(routeOptions := s.routeOptions.(fastestRoute := checked))
  }

  function SetAvoidTolls(s: Session, checked: bool): Session
  {
    s.(routeOptions := s.routeOptions.(avoidTolls := checked))
  }

  function SetAvoidHighways(s: Session, checked: bool): Session
  {
    s.(routeOptions := s.routeOptions.(avoidHighways := checked))
  }

  /** The events the panel reacts to. */
  datatype Event =
    | LocationFound
    | Typed(text: string)
    | Selected(place: Place)
    | StartPressed
    | StopPressed
    | NextPressed
    | ClearPressed
    | FastestRouteChecked(checked: bool)
    | AvoidTollsChecked(checked: bool)
    | AvoidHighwaysChecked(checked: bool)

  function Apply(s: Session, e: Event): Session
  {
    match e
    case LocationFound => Locate(s)
    case Typed(text) => TypeQuery(s, text)
    case Selected(p) => SelectDestination(s, p)
    case StartPressed => StartNavigation(s)
    case StopPressed => StopNavigation(s)
    case NextPressed => NextStep(s)
    case ClearPressed => ClearSearch(s)
    case FastestRouteChecked(b) => SetFastestRoute(s, b)
    case AvoidTollsChecked(b) => SetAvoidTolls(s, b)
    case AvoidHighwaysChecked(b) => SetAvoidHighways(s, b)
  }

  /** The state after a sequence of events, in order. */
  function Run(s: Session, events: seq<Event>): Session
    decreases |events|
  {
    if events == [] then s else Run(Apply(s, events[0]), events[1..])
  }

  lemma InitialInv()
    ensures Inv(Initial)
  {
  }

  /** Committing a query leaves the results and the dropdown consistent with it. */
  lemma CommitKeepsSearchConsistent(s: Session, q: string)
    requires SearchConsistent(s.searchQuery, s.searchResults, s.showSearchResults)
    ensures var r := CommitSearchQuery(s, q);
      r.searchQuery == q && SearchConsistent(r.searchQuery, r.searchResults, r.showSearchResults)
  {
  }

  /** Typing keeps the invariant. */
  lemma TypeQueryKeepsInv(s: Session, text: string)
    requires Inv(s)
    ensures Inv(TypeQuery(s, text))
  {
    CommitKeepsSearchConsistent(s, text);
  }

  /** Selecting a place keeps the invariant: hiding the dropdown can only help. */
  lemma SelectDestinationKeepsInv(s: Session, p: Place)
    requires Inv(s)
    ensures Inv(SelectDestination(s, p))
  {
    CommitKeepsSearchConsistent(s.(destination := Some(p), showSearchResults := false), p.name);
  }

  /** Clearing the search box keeps the invariant. */
  lemma ClearSearchKeepsInv(s: Session)
    requires Inv(s)
    ensures Inv(ClearSearch(s))
  {
    CommitKeepsSearchConsistent(s.(destination := None), "");
  }

  /** Every handler keeps the invariant. */
  lemma ApplyKeepsInv(s: Session, e: Event)
    requires Inv(s)
    ensures Inv(Apply(s, e))
  {
    match e
    case Typed(text) => TypeQueryKeepsInv(s, text);
    case Selected(p) => SelectDestinationKeepsInv(s, p);
    case ClearPressed => ClearSearchKeepsInv(s);
    case _ =>
  }

  /** The invariant holds after every sequence of events from any state that has it;
      in particular the step index stays within 0 .. StepCount - 1 forever. */
  lemma {:induction false} RunKeepsInv(s: Session, events: seq<Event>)
    requires Inv(s)
    ensures Inv(Run(s, events))
    decreases |events|
  {
    if events != [] {
      ApplyKeepsInv(s, events[0]);
      RunKeepsInv(Apply(s, events[0]), events[1..]);
    }
  }

  /** Start does something only when a destination is set; it then navigates from the
      first step, however far an earlier run had advanced, and touches nothing else. */
  lemma StartNavigationSpec(s: Session)
    ensures s.destination.None? ==> StartNavigation(s) == s
    ensures s.destination.Some? ==>
      StartNavigation(s).isNavigating && StartNavigation(s).currentStepIndex == 0
      && StartNavigation(s).(isNavigating := s.isNavigating, currentStepIndex := s.currentStepIndex) == s
  {
  }

  /** Start reads neither the current location nor the route options. */
  lemma StartIgnoresLocationAndOptions(s: Session, location: Option<Place>, options: RouteOptions)
    ensures StartNavigation(s.(currentLocation := location, routeOptions := options))
         == StartNavigation(s).(currentLocation := location, routeOptions := options)
  {
  }

  /** Stop ends navigation at the first step and keeps destination, query and options. */
  lemma StopNavigationSpec(s: Session)
    ensures !StopNavigation(s).isNavigating && StopNavigation(s).currentStepIndex == 0
    ensures StopNavigation(s).destination == s.destination
    ensures StopNavigation(s).searchQuery == s.searchQuery
    ensures StopNavigation(s).routeOptions == s.routeOptions
  {
  }

  /** Stopping and starting again always restarts from the first step. */
  lemma StopThenStartRestarts(s: Session)
    requires s.destination.Some?
    ensures StartNavigation(StopNavigation(s)).isNavigating
    ensures StartNavigation(StopNavigation(s)).currentStepIndex == 0
  {
  }

  /** Selecting a place makes it the destination and its name the query, leaves navigation
      alone, and, when the name differs from the old query, reruns the search: for one of
      the fixed places the dropdown then reopens with that place in it. */
  lemma SelectDestinationSpec(s: Session, p: Place)
    requires Inv(s)
    ensures SelectDestination(s, p).destination == Some(p)
    ensures SelectDestination(s, p).searchQuery == p.name
    ensures SelectDestination(s, p).isNavigating == s.isNavigating
    ensures SelectDestination(s, p).currentStepIndex == s.currentStepIndex
    ensures SelectDestination(s, p).routeOptions == s.routeOptions
    ensures SelectDestination(s, p).currentLocation == s.currentLocation
    ensures p.name == s.searchQuery ==>
      !SelectDestination(s, p).showSearchResults && SelectDestination(s, p).searchResults == s.searchResults
    ensures p.name != s.searchQuery && !IsBlank(p.name) ==>
      SelectDestination(s, p).showSearchResults
      && (p in SelectDestination(s, p).searchResults <==> p in MockLocations)
  {
    IncludesItself(ToLowerCase(p.name));
    FilterMembership(MockLocations, p.name, p);
  }

  /** The X button empties the query, drops the destination and hides the results, and
      leaves navigation running if it was. */
  lemma ClearSearchSpec(s: Session)
    requires Inv(s)
    ensures ClearSearch(s).searchQuery == "" && ClearSearch(s).destination.None?
    ensures ClearSearch(s).searchResults == [] && !ClearSearch(s).showSearchResults
    ensures ClearSearch(s).isNavigating == s.isNavigating
    ensures ClearSearch(s).currentStepIndex == s.currentStepIndex
    ensures ClearSearch(s)
      == s.(searchQuery := "", destination := None, searchResults := [], showSearchResults := false)
  {
  }

  /** Navigating without a destination is reachable through the rendered panel: typing
      "Taj Mahal" shows the Agra entry in the dropdown, selecting it enables Start, and the
      X button (shown because the query is not empty) then clears the destination. */
  lemma NavigatingWithoutDestination()
    ensures Apply(Initial, Typed("Taj Mahal")).showSearchResults
    ensures Apply(Initial, Typed("Taj Mahal")).searchResults == [TajMahal]
    ensures Run(Initial, [Typed("Taj Mahal"), Selected(TajMahal), StartPressed, ClearPressed]).isNavigating
    ensures Run(Initial, [Typed("Taj Mahal"), Selected(TajMahal), StartPressed, ClearPressed]).destination.None?
  {
    TajMahalQuery();
    var events := [Typed("Taj Mahal"), Selected(TajMahal), StartPressed, ClearPressed];
    var s1 := Apply(Initial, events[0]);
    var s2 := Apply(s1, events[1]);
    var s3 := Apply(s2, events[2]);
    var s4 := Apply(s3, events[3]);
    assert s2.destination == Some(TajMahal);
    assert s3.isNavigating;
    assert s4.isNavigating && s4.destination.None?;
    calc {
      Run(Initial, events);
      Run(s1, events[1..]);
      { assert events[1..][1..] == events[2..]; }
      Run(s2, events[2..]);
      { assert events[2..][1..] == events[3..]; }
      Run(s3, events[3..]);
      { assert events[3..][1..] == []; }
      s4;
    }
  }

  /** While the handlers keep the invariant, the step the panel shows always exists. */
  lemma CurrentStepDefined(s: Session)
    requires Inv(s)
    ensures CurrentStep(MockNavigationSteps, s.currentStepIndex).Some?
  {
    StepCountIsLength();
  }

  /** Each route option box sets its own flag and nothing else. */
  lemma RouteOptionsIndependent(s: Session, b: bool)
    ensures SetFastestRoute(s, b).routeOptions.fastestRoute == b
    ensures SetFastestRoute(s, b).routeOptions.(fastestRoute := s.routeOptions.fastestRoute) == s.routeOptions
    ensures SetAvoidTolls(s, b).routeOptions.avoidTolls == b
    ensures SetAvoidTolls(s, b).routeOptions.(avoidTolls := s.routeOptions.avoidTolls) == s.routeOptions
    ensures SetAvoidHighways(s, b).routeOptions.avoidHighways == b
    ensures SetAvoidHighways(s, b).routeOptions.(avoidHighways := s.routeOptions.avoidHighways) == s.routeOptions
    ensures SetFastestRoute(s, b).(routeOptions := s.routeOptions) == s
    ensures SetAvoidTolls(s, b).(routeOptions := s.routeOptions) == s
    ensures SetAvoidHighways(s, b).(routeOptions := s.routeOptions) == s
  {
  }

  /** The panel's state, held in fields that the handlers update in place. */
  class Panel {
    var currentLocation: Option<Place>
    var destination: Option<Place>
    var searchQuery: string
    var searchResults: seq<Place>
    var showSearchResults: bool
    var isNavigating: bool
    var currentStepIndex: int
    var routeOptions: RouteOptions

    /** The fields as a snapshot. */
    function State(): Session
      reads this
    {
      Session(currentLocation, destination, searchQuery, searchResults, showSearchResults,
              isNavigating, currentStepIndex, routeOptions)
    }

    predicate Valid()
      reads this
    {
      Inv(State())
    }

    constructor ()
      ensures State() == Initial && Valid()
    {
      currentLocation := None;
      destination := None;
      searchQuery := "";
      searchResults := [];
      showSearchResults := false;
      isNavigating := false;
      currentStepIndex := 0;
      routeOptions := DefaultRouteOptions;
      InitialInv();
    }

    /** The search effect: recompute the results for the current query. */
    method RunSearchEffect()
      modifies this
      ensures State() == old(State()).(searchResults := SearchEffect(searchQuery).0,
                                       showSearchResults := SearchEffect(searchQuery).1)
    {
      if !IsBlank(searchQuery) {
        var filtered := Filter(MockLocations, searchQuery);
        searchResults := filtered;
        showSearchResults := true;
      } else {
        searchResults := [];
        showSearchResults := false;
      }
    }

    /** `setSearchQuery(q)`, then the effect if the query changed. */
    method SetSearchQuery(q: string)
      modifies this
      ensures State() == CommitSearchQuery(old(State()), q)
    {
      var changed := q != searchQuery;
      searchQuery := q;
      if changed {
        RunSearchEffect();
      }
    }

    method HandleLocate()
      requires Valid()
      modifies this
      ensures State() == Locate(old(State())) && Valid()
    {
      currentLocation := Some(YourLocation);
    }

    method HandleQueryChange(text: string)
      requires Valid()
      modifies this
      ensures State() == TypeQuery(old(State()), text) && Valid()
    {
      TypeQueryKeepsInv(State(), text);
      SetSearchQuery(text);
    }

    method HandleDestinationSelect(location: Place)
      requires Valid()
      modifies this
      ensures State() == SelectDestination(old(State()), location) && Valid()
    {
      SelectDestinationKeepsInv(State(), location);
      destination := Some(location);
      showSearchResults := false;
      SetSearchQuery(location.name);
    }

    method HandleStartNavigation()
      requires Valid()
      modifies this
      ensures State() == StartNavigation(old(State())) && Valid()
    {
      if destination.Some? {
        isNavigating := true;
        currentStepIndex := 0;
      }
    }

    method HandleStopNavigation()
      requires Valid()
      modifies this
      ensures State() == StopNavigation(old(State())) && Valid()
    {
      isNavigating := false;
      currentStepIndex := 0;
    }

    method HandleNextStep()
      requires Valid()
      modifies this
      ensures State() == NextStep(old(State())) && Valid()
    {
      if currentStepIndex < StepCount - 1 {
        currentStepIndex := currentStepIndex + 1;
      }
    }

    method HandleClearSearch()
      requires Valid()
      modifies this
      ensures State() == ClearSearch(old(State())) && Valid()
    {
      ClearSearchKeepsInv(State());
      destination := None;
      SetSearchQuery("");
    }

    method HandleFastestRouteChange(checked: bool)
      requires Valid()
      modifies this
      ensures State() == SetFastestRoute(old(State()), checked) && Valid()
    {
      routeOptions := routeOptions.(fastestRoute := checked);
    }

    method HandleAvoidTollsChange(checked: bool)
      requires Valid()
      modifies this
      ensures State() == SetAvoidTolls(old(State()), checked) && Valid()
    {
      routeOptions := routeOptions.(avoidTolls := checked);
    }

    method HandleAvoidHighwaysChange(checked: bool)
      requires Valid()
      modifies this
      ensures State() == SetAvoidHighways(old(State()), checked) && Valid()
    {
      routeOptions := routeOptions.(avoidHighways := checked);
    }

    /** The badge shown while navigating. */
    method ProgressBadge() returns (badge: (int, int))
      requires Valid()
      ensures badge == Badge(currentStepIndex, StepCount)
      ensures 1 <= badge.0 <= badge.1 == 5
    {
      badge := (currentStepIndex + 1, StepCount);
    }
  }

  /** Choosing a destination, starting and pressing Next four times shows "5 of 5";
      a fifth press changes nothing. */
  method WalkThroughAllSteps(p: Place) returns (afterFour: (int, int), afterFive: (int, int))
    ensures afterFour == (5, 5) && afterFive == (5, 5)
  {
    var panel := new Panel();
    InitialInv();
    SelectDestinationSpec(Initial, p);
    panel.HandleDestinationSelect(p);
    assert panel.destination == Some(p);
    panel.HandleStartNavigation();
    assert panel.currentStepIndex == 0;
    panel.HandleNextStep();
    panel.HandleNextStep();
    panel.HandleNextStep();
    panel.HandleNextStep();
    afterFour := panel.ProgressBadge();
    panel.HandleNextStep();
    afterFive := panel.ProgressBadge();
  }

  /** The X button during navigation leaves the panel navigating with no destination. */
  method ClearWhileNavigating(p: Place) returns (navigating: bool, destination: Option<Place>)
    ensures navigating && destination.None?
  {
    var panel := new Panel();
    panel.HandleDestinationSelect(p);
    panel.HandleStartNavigation();
    panel.HandleClearSearch();
    navigating, destination := panel.isNavigating, panel.destination;
  }
}
