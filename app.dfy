/** The router shell: the route table, the depth of each route, the direction a
    page change slides in, and the `AnimatedPage` wrapper that takes a page change
    through the stages exiting, entering and idle. Timers are events the caller
    fires; their durations are not modelled. */
module App {
  import opened JsText

  /** The page components the router mounts. */
  datatype Screen = Welcome | Login | SignUp | Home | CalendarScreen | TimetableScreen
                  | ProfileScreen | Students | StudentRecord

  /** The `<Routes>` table. */
  const ROUTES: map<string, Screen> :=
    map["/" := Welcome, "/login" := Login, "/signup" := SignUp, "/home" := Home,
        "/calendar" := CalendarScreen, "/timetable" := TimetableScreen,
        "/profile" := ProfileScreen, "/students" := Students,
        "/student-record" := StudentRecord]

  /** The `routeDepth` table: a deeper page has a larger number. */
  const ROUTE_DEPTH: map<string, nat> :=
    map["/" := 0, "/login" := 1, "/signup" := 1, "/home" := 2, "/calendar" := 2,
        "/timetable" := 2, "/profile" := 2, "/students" := 2, "/student-record" := 3]

  /** `routeDepth[path] || 0`: a path missing from the table counts as depth 0. */
  function RouteDepth(path: string): (d: nat)
    ensures path in ROUTE_DEPTH ==> d == ROUTE_DEPTH[path]
    ensures path !in ROUTE_DEPTH ==> d == 0
    ensures d <= 3
  {
    if path in ROUTE_DEPTH then ROUTE_DEPTH[path] else 0
  }

  /** Every routed path has a depth, and every path with a depth is routed. */
  lemma RoutesHaveDepths()
    ensures ROUTES.Keys == ROUTE_DEPTH.Keys
  {
  }

  /** The welcome page is the only page at depth 0 among the routed ones, so only
      an unrouted path shares its depth. */
  lemma OnlyWelcomeIsShallowest(path: string)
    requires path in ROUTES
    ensures RouteDepth(path) == 0 <==> ROUTES[path] == Welcome
  {
  }

  /** The path the student list navigates to has no route and depth 0. */
  lemma StudentDetailPathUnrouted()
    ensures "/teacher/students/S01" !in ROUTES
    ensures RouteDepth("/teacher/students/S01") == 0
  {
  }

  datatype Direction = Forward | Backward

  /** `isForward ? "forward" : "backward"` with `isForward` the strict depth test. */
  function DirectionOf(from: string, to: string): (d: Direction)
    ensures d == Forward <==> RouteDepth(to) > RouteDepth(from)
  {
    if RouteDepth(to) > RouteDepth(from) then Forward else Backward
  }

  /** Going forward one way means going back the other way; pages of equal depth
      go backward both ways. */
  lemma DirectionReverses(a: string, b: string)
    ensures DirectionOf(a, b) == Forward ==> DirectionOf(b, a) == Backward
    ensures RouteDepth(a) == RouteDepth(b) ==>
      DirectionOf(a, b) == Backward && DirectionOf(b, a) == Backward
  {
  }

  /** Moving between two tab pages of the same depth slides as "backward". */
  lemma SameDepthIsBackward()
    ensures DirectionOf("/home", "/calendar") == Backward
    ensures DirectionOf("/calendar", "/home") == Backward
  {
  }

  datatype Stage = Idle | Exiting | Entering

  datatype Animation = SlideOutToLeft | SlideOutToRight | SlideInFromRight | SlideInFromLeft

  /** The `animation` of the transition wrapper. */
  function AnimationFor(direction: Direction, isExiting: bool): (a: Animation)
    ensures isExiting <==> a.SlideOutToLeft? || a.SlideOutToRight?
    ensures isExiting && direction == Forward ==> a == SlideOutToLeft
    ensures isExiting && direction == Backward ==> a == SlideOutToRight
    ensures !isExiting && direction == Forward ==> a == SlideInFromRight
    ensures !isExiting && direction == Backward ==> a == SlideInFromLeft
  {
    if isExiting then (if direction == Forward then SlideOutToLeft else SlideOutToRight)
    else (if direction == Forward then SlideInFromRight else SlideInFromLeft)
  }

  /** The page moves towards the left of the screen. */
  predicate MovesLeft(a: Animation) {
    a.SlideOutToLeft? || a.SlideInFromRight?
  }

  /** Both halves of a transition move the same way: leftwards exactly when forward. */
  lemma AnimationFollowsDirection(direction: Direction, isExiting: bool)
    ensures MovesLeft(AnimationFor(direction, isExiting)) <==> direction == Forward
  {
  }

  /** What `AnimatedPage` renders around its child. */
  datatype View = Plain | Animated(animation: Animation, key: string)

  /** The wrapper is used only while a transition runs, keyed by the shown path. */
  function Render(stage: Stage, direction: Direction, displayPath: string): (v: View)
    ensures v.Plain? <==> stage == Idle
    ensures v.Animated? ==>
      v.key == displayPath && v.animation == AnimationFor(direction, stage == Exiting)
  {
    if stage == Idle then Plain else Animated(AnimationFor(direction, stage == Exiting), displayPath)
  }

  /** The state of one mounted `AnimatedPage`. `location` is the router's current
      path; `pendingSwap` is the outer timer, holding the path it will show;
      `idleTimers` counts the inner timers that will end the entering stage. */
  class AnimatedPage {
    var location: string
    var displayLocation: string
    var transitionStage: Stage
    var direction: Direction
    var pendingSwap: Option<string>
    var idleTimers: nat

    /** A swap is pending exactly when the shown page lags the current location,
        and it will show the current location. */
    predicate Valid()
      reads this
    {
      (pendingSwap.Some? <==> location != displayLocation)
      && (pendingSwap.Some? ==> pendingSwap.value == location)
    }

    /** Mounting shows the current location, idle, with no timer. */
    constructor(path: string)
      ensures Valid()
      ensures location == path && displayLocation == path
      ensures transitionStage == Idle && direction == Forward
      ensures pendingSwap == None && idleTimers == 0
      ensures View() == Plain
    {
      location := path;
      displayLocation := path;
      transitionStage := Idle;
      direction := Forward;
      pendingSwap := None;
      idleTimers := 0;
    }

    function View(): View
      reads this
    {
      Render(transitionStage, direction, displayLocation)
    }

    /** The router moves to `path`: the effect's cleanup cancels the outer timer,
        and a transition starts only when the path differs from the shown one. */
    method Navigate(path: string) returns (started: bool)
      requires Valid()
      modifies this`location, this`direction, this`transitionStage, this`pendingSwap
      ensures Valid()
      ensures location == path && started == (path != displayLocation)
      ensures started ==>
        direction == DirectionOf(displayLocation, path)
        && transitionStage == Exiting && pendingSwap == Some(path)
      ensures !started ==>
        direction == old(direction) && transitionStage == old(transitionStage) && pendingSwap == None
    {
      location := path;
      pendingSwap := None;
      if path != displayLocation {
        direction := DirectionOf(displayLocation, path);
        transitionStage := Exiting;
        pendingSwap := Some(path);
        started := true;
      } else {
        started := false;
      }
    }

    /** The outer timer fires: the new page is shown, entering, and an inner timer
        is set. The effect then re-runs and finds nothing to do. */
    method SwapTimerFires()
      requires Valid() && pendingSwap.Some?
      modifies this`displayLocation, this`transitionStage, this`pendingSwap, this`idleTimers
      ensures Valid()
      ensures displayLocation == old(pendingSwap.value) == location
      ensures transitionStage == Entering && pendingSwap == None
      ensures idleTimers == old(idleTimers) + 1
    {
      displayLocation := pendingSwap.value;
      transitionStage := Entering;
      pendingSwap := None;
      idleTimers := idleTimers + 1;
    }

    /** An inner timer fires: the stage returns to idle. Nothing cancels it. */
    method IdleTimerFires()
      requires Valid() && idleTimers > 0
      modifies this`transitionStage, this`idleTimers
      ensures Valid()
      ensures transitionStage == Idle && idleTimers == old(idleTimers) - 1
    {
      transitionStage := Idle;
      idleTimers := idleTimers - 1;
    }
  }

  /** An uninterrupted page change from a resting page runs exiting, entering,
      idle, and ends showing the new path, with the wrapper gone. */
  method RunTransition(page: AnimatedPage, path: string) returns (stages: seq<Stage>)
    requires page.Valid() && page.transitionStage == Idle && page.idleTimers == 0
    requires path != page.displayLocation
    modifies page
    ensures page.Valid()
    ensures stages == [Exiting, Entering, Idle]
    ensures page.displayLocation == path && page.location == path
    ensures page.direction == DirectionOf(old(page.displayLocation), path)
    ensures page.pendingSwap == None && page.idleTimers == 0
    ensures page.View() == Plain
  {
    var started := page.Navigate(path);
    stages := [page.transitionStage];
    page.SwapTimerFires();
    stages := stages + [page.transitionStage];
    page.IdleTimerFires();
    stages := stages + [page.transitionStage];
  }

  /** Going to another page and back before the outer timer fires cancels the
      swap but not the exiting stage: the wrapper stays in its exit animation with
      no timer left to end it. */
  method ReturnBeforeSwap(page: AnimatedPage, other: string) returns (view: View)
    requires page.Valid() && page.transitionStage == Idle && page.idleTimers == 0
    requires other != page.displayLocation
    modifies page
    ensures page.Valid()
    ensures page.location == page.displayLocation == old(page.displayLocation)
    ensures page.transitionStage == Exiting && page.pendingSwap == None && page.idleTimers == 0
    ensures view == Animated(AnimationFor(DirectionOf(page.displayLocation, other), true),
                             page.displayLocation)
  {
    var back := page.displayLocation;
    var started := page.Navigate(other);
    started := page.Navigate(back);
    view := page.View();
  }
}
