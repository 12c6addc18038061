/** A model of the location-tracking component of a small web application.

The component keeps four pieces of state: the last location text, the last
error text, a tracking flag that selects which control is shown, and the id
of the live position watch (if any). Two user actions (start and stop) and two
provider callbacks (a position fix and a position error) change that state;
a pure projection turns it into what is displayed.

The browser's geolocation service is not modelled: whether it is supported
and the fresh watch id it hands out are parameters of the start event, and
what the component asks of it (start a watch, clear a watch) is returned as a
`Request`. A second layer, `System`, pairs the component with the set of
watches the provider is serving, so that "at most one live watch" can be
stated about the two together.
 */
module Geolocation {

  datatype Option<T> = None | Some(value: T)

  /* ---------------------------------------------------------------------
     State, events and constants
     --------------------------------------------------------------------- */

  /** The component's state. `watchId` is the handle of the live position
      watch; `tracking` is what decides which button is rendered. */
  datatype State = State(location: string, error: string, tracking: bool, watchId: Option<nat>)

  /** The error codes of GeolocationPositionError in the W3C Geolocation API. */
  const PERMISSION_DENIED: int := 1
  const POSITION_UNAVAILABLE: int := 2
  const TIMEOUT: int := 3

  const NotSupportedMessage: string := "Geolocation is not supported by this browser."
  const PermissionDeniedMessage: string := "User denied the request for Geolocation."
  const UnavailableMessage: string := "Location information is unavailable."
  const TimeoutMessage: string := "The request to get user location timed out."
  const UnknownErrorMessage: string := "An unknown error occurred."
  const StoppedMessage: string := "Tracking stopped."
  const WaitingMessage: string := "Waiting for location..."

  /** The options passed along with every watch request. */
  datatype WatchOptions = WatchOptions(enableHighAccuracy: bool, maximumAge: nat, timeout: nat)

  const TrackingOptions: WatchOptions := WatchOptions(true, 0, 1000)

  /** What one event asks of the geolocation provider. */
  datatype Request =
    | NoRequest
    | WatchPosition(id: nat, options: WatchOptions)
    | ClearWatch(id: nat)

  /** The state after an event, together with the provider request it made. */
  datatype Transition = Transition(next: State, request: Request)

  /** The four things that can happen to the component. A start carries the
      provider's answers: whether geolocation exists in this browser and the
      id `watchPosition` would return. Coordinates are carried as the text the
      browser prints for them. */
  datatype Event =
    | Start(supported: bool, freshId: nat)
    | Stop
    | Position(latitude: string, longitude: string)
    | PositionError(code: int)

  /** The tracking flag is set exactly when a watch id is stored. */
  predicate Inv(s: State) {
    s.tracking <==> s.watchId.Some?
  }

  /** The state of a freshly mounted component. */
  function Initial(): (s: State)
    ensures Inv(s)
    ensures !s.tracking && s.location == "" && s.error == ""
  {
    State("", "", false, None)
  }

  /* ---------------------------------------------------------------------
     Transitions
     --------------------------------------------------------------------- */

  /** The user presses Start. Without geolocation only the error text
      changes; with a watch already live nothing at all changes; otherwise a
      watch is requested and its id stored. */
  function StartTracking(s: State, supported: bool, freshId: nat): (t: Transition)
    ensures !supported ==>
      && t.request == NoRequest
      && t.next.error == NotSupportedMessage
      && t.next.location == s.location
      && t.next.tracking == s.tracking
      && t.next.watchId == s.watchId
    ensures supported && s.watchId.Some? ==> t.next == s && t.request == NoRequest
    ensures supported && s.watchId.None? ==>
      && t.request == WatchPosition(freshId, TrackingOptions)
      && t.next.watchId == Some(freshId)
      && t.next.tracking
      && t.next.error == ""
      && t.next.location == s.location
  {
    if !supported then
      Transition(s.(error := NotSupportedMessage), NoRequest)
    else if s.watchId.None? then
      Transition(s.(watchId := Some(freshId), tracking := true, error := ""),
                 WatchPosition(freshId, TrackingOptions))
    else
      Transition(s, NoRequest)
  }

  /** The user presses Stop. The live watch, if any, is cleared; the error
      text is left as it was. */
  function StopTracking(s: State): (t: Transition)
    ensures t.next.watchId == None && !t.next.tracking
    ensures t.next.location == StoppedMessage
    ensures t.next.error == s.error
    ensures s.watchId.Some? ==> t.request == ClearWatch(s.watchId.value)
    ensures s.watchId.None? ==> t.request == NoRequest
  {
    var request := if s.watchId.Some? then ClearWatch(s.watchId.value) else NoRequest;
    Transition(State(StoppedMessage, s.error, false, None), request)
  }

  /** The text shown for a position fix. */
  function PositionText(latitude: string, longitude: string): string {
    "Latitude: " + latitude + ", Longitude: " + longitude
  }

  /** The success callback: show the coordinates and clear any error. */
  function ShowPosition(s: State, latitude: string, longitude: string): (r: State)
    ensures r.location == PositionText(latitude, longitude)
    ensures r.error == ""
    ensures r.tracking == s.tracking && r.watchId == s.watchId
  {
    s.(location := PositionText(latitude, longitude), error := "")
  }

  /** The message for an error code; codes outside the three the standard
      defines fall to the default branch. */
  function ErrorMessage(code: int): (m: string)
    ensures code == PERMISSION_DENIED ==> m == PermissionDeniedMessage
    ensures code == POSITION_UNAVAILABLE ==> m == UnavailableMessage
    ensures code == TIMEOUT ==> m == TimeoutMessage
    ensures code != PERMISSION_DENIED && code != POSITION_UNAVAILABLE && code != TIMEOUT ==>
      m == UnknownErrorMessage
  {
    if code == PERMISSION_DENIED then PermissionDeniedMessage
    else if code == POSITION_UNAVAILABLE then UnavailableMessage
    else if code == TIMEOUT then TimeoutMessage
    else UnknownErrorMessage
  }

  /** The error callback: show the message and blank the coordinates. The
      watch is not stopped. */
  function HandleError(s: State, code: int): (r: State)
    ensures r.error == ErrorMessage(code)
    ensures r.location == ""
    ensures r.tracking == s.tracking && r.watchId == s.watchId
  {
    s.(error := ErrorMessage(code), location := "")
  }

  /** One event, applied atomically. Callbacks never talk to the provider,
      and every event keeps the tracking flag in step with the watch id. */
  function Step(s: State, e: Event): (t: Transition)
    ensures e.Position? || e.PositionError? ==> t.request == NoRequest
    ensures Inv(s) ==> Inv(t.next)
  {
    match e
    case Start(supported, freshId) => StartTracking(s, supported, freshId)
    case Stop => StopTracking(s)
    case Position(latitude, longitude) => Transition(ShowPosition(s, latitude, longitude), NoRequest)
    case PositionError(code) => Transition(HandleError(s, code), NoRequest)
  }

  /* ---------------------------------------------------------------------
     Rendering
     --------------------------------------------------------------------- */

  datatype Control = StartButton | StopButton

  datatype Color = Red | Black

  /** What the user sees: one button and one coloured status line. */
  datatype View = View(control: Control, status: string, color: Color)

  /** The error wins over the location, which wins over the waiting
      placeholder; the line is red exactly while there is an error. */
  function Render(s: State): (v: View)
    ensures v.control == StartButton <==> !s.tracking
    ensures v.color == Red <==> s.error != ""
    ensures s.error != "" ==> v.status == s.error
    ensures s.error == "" && s.location != "" ==> v.status == s.location
    ensures s.error == "" && s.location == "" ==> v.status == WaitingMessage
  {
    var status := if s.error != "" then s.error
                  else if s.location != "" then s.location
                  else WaitingMessage;
    View(if s.tracking then StopButton else StartButton,
         status,
         if s.error != "" then Red else Black)
  }

  /* ---------------------------------------------------------------------
     Runs of events
     --------------------------------------------------------------------- */

  /** The state after a sequence of events. */
  function Run(s: State, events: seq<Event>): State
    decreases |events|
  {
    if events == [] then s else Run(Step(s, events[0]).next, events[1..])
  }

  /** How many watches a sequence of events asks the provider to start. */
  function WatchRequests(s: State, events: seq<Event>): nat
    decreases |events|
  {
    if events == [] then 0
    else
      var t := Step(s, events[0]);
      (if t.request.WatchPosition? then 1 else 0) + WatchRequests(t.next, events[1..])
  }

  /* ---------------------------------------------------------------------
     The component together with the provider
     --------------------------------------------------------------------- */

  /** The component and the set of watch ids the provider is serving. */
  datatype System = System(ui: State, live: set<nat>)

  function WatchSet(id: Option<nat>): set<nat> {
    if id.Some? then {id.value} else {}
  }

  /** The provider serves at most the watch the component has stored. It
      may have dropped that watch on its own, but it never serves one the
      component does not know about. */
  predicate Consistent(sys: System) {
    Inv(sys.ui) && sys.live <= WatchSet(sys.ui.watchId)
  }

  /** A denied permission makes the provider drop the watch that reported it
      before the error callback runs (the "request a position" steps of the
      W3C Geolocation API); the other errors leave the watch running. */
  function ProviderDrops(live: set<nat>, e: Event): set<nat> {
    if e.PositionError? && e.code == PERMISSION_DENIED then {} else live
  }

  /** The provider's reaction to a request. */
  function ApplyRequest(live: set<nat>, request: Request): set<nat> {
    match request
    case NoRequest => live
    case WatchPosition(id, _) => live + {id}
    case ClearWatch(id) => live - {id}
  }

  /** One event, with the provider dropping a denied watch and then carrying
      out what it was asked. The component and the provider stay consistent;
      they agree exactly unless a permission denial intervened. */
  function SystemStep(sys: System, e: Event): (r: System)
    ensures Consistent(sys) ==> Consistent(r) && |r.live| <= 1
    ensures e == PositionError(PERMISSION_DENIED) ==> r.live == {}
    ensures Consistent(sys) && sys.live == WatchSet(sys.ui.watchId) && e != PositionError(PERMISSION_DENIED) ==>
      r.live == WatchSet(r.ui.watchId)
  {
    var t := Step(sys.ui, e);
    System(t.next, ApplyRequest(ProviderDrops(sys.live, e), t.request))
  }

  function SystemRun(sys: System, events: seq<Event>): System
    decreases |events|
  {
    if events == [] then sys else SystemRun(SystemStep(sys, events[0]), events[1..])
  }

  /** The provider calls back only while one of its watches is live. */
  predicate Delivers(sys: System, e: Event) {
    (e.Position? || e.PositionError?) ==> sys.live != {}
  }

  /** Every event of the sequence can happen when it does. */
  predicate Feasible(sys: System, events: seq<Event>)
    decreases |events|
  {
    events == [] || (Delivers(sys, events[0]) && Feasible(SystemStep(sys, events[0]), events[1..]))
  }

  /* ---------------------------------------------------------------------
     Properties
     --------------------------------------------------------------------- */

  /** Every event keeps the invariant, so every run from the initial state
      does. */
  lemma {:induction false} RunPreservesInv(s: State, events: seq<Event>)
    requires Inv(s)
    ensures Inv(Run(s, events))
    decreases |events|
  {
    if events != [] {
      RunPreservesInv(Step(s, events[0]).next, events[1..]);
    }
  }

  lemma ReachableInv(events: seq<Event>)
    ensures Inv(Run(Initial(), events))
  {
    RunPreservesInv(Initial(), events);
  }

  /** The provider never serves a watch the component has not stored, so it
      never serves more than one watch for the component. */
  lemma {:induction false} SystemRunConsistent(sys: System, events: seq<Event>)
    requires Consistent(sys)
    ensures Consistent(SystemRun(sys, events))
    ensures |SystemRun(sys, events).live| <= 1
    decreases |events|
  {
    if events != [] {
      SystemRunConsistent(SystemStep(sys, events[0]), events[1..]);
    } else if sys.ui.watchId.Some? {
      assert sys.live == {} || sys.live == {sys.ui.watchId.value};
    }
  }

  /** Without a permission denial, the provider serves exactly the watch
      the component has stored. */
  lemma {:induction false} ProviderMatchesWithoutDenial(sys: System, events: seq<Event>)
    requires Consistent(sys) && sys.live == WatchSet(sys.ui.watchId)
    requires forall i :: 0 <= i < |events| ==> events[i] != PositionError(PERMISSION_DENIED)
    ensures var r := SystemRun(sys, events); r.live == WatchSet(r.ui.watchId)
    decreases |events|
  {
    if events != [] {
      var next := SystemStep(sys, events[0]);
      forall i | 0 <= i < |events[1..]|
        ensures events[1..][i] != PositionError(PERMISSION_DENIED)
      {
        assert events[1..][i] == events[i + 1];
      }
      ProviderMatchesWithoutDenial(next, events[1..]);
    }
  }

  /** From mount: at most one watch is live, it is the stored one, and a
      live watch means the Stop button is up. */
  lemma AtMostOneLiveWatch(events: seq<Event>)
    ensures var r := SystemRun(System(Initial(), {}), events);
      && |r.live| <= 1
      && r.live <= WatchSet(r.ui.watchId)
      && (r.live != {} ==> r.ui.tracking)
  {
    SystemRunConsistent(System(Initial(), {}), events);
  }

  /** From mount and without a permission denial, the Stop button is up
      exactly while the provider serves a watch. */
  lemma TrackingIffLiveWithoutDenial(events: seq<Event>)
    requires forall i :: 0 <= i < |events| ==> events[i] != PositionError(PERMISSION_DENIED)
    ensures var r := SystemRun(System(Initial(), {}), events);
      r.ui.tracking <==> r.live != {}
  {
    SystemRunConsistent(System(Initial(), {}), events);
    ProviderMatchesWithoutDenial(System(Initial(), {}), events);
  }

  /** After a permission denial the provider has dropped the watch, but the
      component still stores its id and keeps the Stop button up; no further
      callback can arrive, and Stop brings the two back into agreement. */
  lemma PermissionDeniedLeavesStaleWatch(freshId: nat)
    ensures var r := SystemRun(System(Initial(), {}), [Start(true, freshId), PositionError(PERMISSION_DENIED)]);
      && r.live == {}
      && r.ui.tracking && r.ui.watchId == Some(freshId)
      && Render(r.ui).control == StopButton
      && Render(r.ui).status == PermissionDeniedMessage
      && !Delivers(r, Position("0", "0"))
      && StopTracking(r.ui).request == ClearWatch(freshId)
      && !SystemStep(r, Stop).ui.tracking
  {
    var events := [Start(true, freshId), PositionError(PERMISSION_DENIED)];
    var sys1 := SystemStep(System(Initial(), {}), events[0]);
    var sys2 := SystemStep(sys1, events[1]);
    assert events[1..] == [PositionError(PERMISSION_DENIED)] && events[1..][1..] == [];
    assert SystemRun(System(Initial(), {}), events) == SystemRun(sys1, events[1..]) == sys2;
  }

  /** Pressing Start any number of times asks for at most one watch: none if
      one is already live, and otherwise exactly one precisely when some
      press finds geolocation supported. */
  lemma {:induction false} RepeatedStartRequestsAtMostOnce(s: State, events: seq<Event>)
    requires forall i :: 0 <= i < |events| ==> events[i].Start?
    ensures WatchRequests(s, events) <= 1
    ensures s.watchId.Some? ==> WatchRequests(s, events) == 0
    ensures s.watchId.None? ==>
      (WatchRequests(s, events) == 1 <==> exists i :: 0 <= i < |events| && events[i].supported)
    decreases |events|
  {
    if events != [] {
      var e := events[0];
      var t := Step(s, e);
      RepeatedStartRequestsAtMostOnce(t.next, events[1..]);
      if s.watchId.None? {
        if e.supported {
          assert WatchRequests(s, events) == 1;
        } else {
          assert t.next.watchId == None;
          if exists i :: 0 <= i < |events| && events[i].supported {
            var i :| 0 <= i < |events| && events[i].supported;
            assert events[1..][i - 1] == events[i];
          }
          if exists i :: 0 <= i < |events[1..]| && events[1..][i].supported {
            var i :| 0 <= i < |events[1..]| && events[1..][i].supported;
            assert events[i + 1] == events[1..][i];
          }
        }
      }
    }
  }

  /** After Stop, with no supported Start, nothing the provider or the user
      can do moves the component away from "Tracking stopped.": no watch is
      live, so no callback arrives. */
  lemma {:induction false} StoppedStaysStopped(sys: System, events: seq<Event>)
    requires Consistent(sys)
    requires !sys.ui.tracking && sys.ui.location == StoppedMessage
    requires Feasible(sys, events)
    requires forall i :: 0 <= i < |events| ==> !(events[i].Start? && events[i].supported)
    ensures var r := SystemRun(sys, events);
      r.ui.location == StoppedMessage && !r.ui.tracking && r.live == {}
    decreases |events|
  {
    if events != [] {
      var next := SystemStep(sys, events[0]);
      assert next.ui.location == StoppedMessage && !next.ui.tracking;
      forall i | 0 <= i < |events[1..]|
        ensures !(events[1..][i].Start? && events[1..][i].supported)
      {
        assert events[1..][i] == events[i + 1];
      }
      StoppedStaysStopped(next, events[1..]);
    }
  }

  /** Stop twice is Stop once, and the second asks the provider for nothing. */
  lemma StopIdempotent(s: State)
    ensures var once := StopTracking(s).next;
      StopTracking(once) == Transition(once, NoRequest)
  {
  }

  /** The status line is never blank, and always one of the error, the
      location or the placeholder. */
  lemma StatusNeverBlank(s: State)
    ensures Render(s).status != ""
    ensures Render(s).status in {s.error, s.location, WaitingMessage}
  {
  }

  /** Distinct messages identify distinct error codes, except that all codes
      outside the standard three share the unknown-error message. */
  lemma ErrorMessageIdentifiesCode(a: int, b: int)
    requires ErrorMessage(a) == ErrorMessage(b)
    ensures a == b || (a !in {PERMISSION_DENIED, POSITION_UNAVAILABLE, TIMEOUT}
                       && b !in {PERMISSION_DENIED, POSITION_UNAVAILABLE, TIMEOUT})
  {
  }

  /** A printed JavaScript number never contains a comma. */
  predicate PrintedNumber(t: string) {
    forall i :: 0 <= i < |t| ==> t[i] != ','
  }

  /** The index of the first comma in a text, or its length if it has none. */
  function FirstComma(t: string): nat
    decreases |t|
  {
    if t == [] || t[0] == ',' then 0 else 1 + FirstComma(t[1..])
  }

  /** A printed number followed by a comma ends where the first comma is. */
  lemma {:induction false} FirstCommaAfterNumber(number: string, rest: string)
    requires PrintedNumber(number)
    requires |rest| > 0 && rest[0] == ','
    ensures FirstComma(number + rest) == |number|
    decreases |number|
  {
    if number == [] {
      assert number + rest == rest;
    } else {
      assert (number + rest)[1..] == number[1..] + rest;
      FirstCommaAfterNumber(number[1..], rest);
    }
  }

  /** The position text determines the coordinates it was built from. */
  lemma PositionTextInjective(lat1: string, lon1: string, lat2: string, lon2: string)
    requires PrintedNumber(lat1) && PrintedNumber(lat2)
    requires PositionText(lat1, lon1) == PositionText(lat2, lon2)
    ensures lat1 == lat2 && lon1 == lon2
  {
    var x := PositionText(lat1, lon1);
    var n := |"Latitude: "|;
    var sep := ", Longitude: ";
    var tail1 := lat1 + (sep + lon1);
    var tail2 := lat2 + (sep + lon2);
    assert x[n..] == tail1 by {
      assert x == "Latitude: " + tail1;
    }
    assert x[n..] == tail2 by {
      assert x == "Latitude: " + tail2;
    }
    FirstCommaAfterNumber(lat1, sep + lon1);
    FirstCommaAfterNumber(lat2, sep + lon2);
    assert |lat1| == |lat2|;
    assert lat1 == tail1[..|lat1|] == tail2[..|lat2|] == lat2;
    assert lon1 == tail1[|lat1| + |sep|..] == tail2[|lat2| + |sep|..] == lon2;
  }

  /* ---------------------------------------------------------------------
     What each event does to the display
     --------------------------------------------------------------------- */

  /** An unsupported start shows the not-supported message in red and keeps
      the button as it was. */
  lemma UnsupportedStartShowsError(s: State, freshId: nat)
    ensures var v := Render(StartTracking(s, false, freshId).next);
      v.status == NotSupportedMessage && v.color == Red && v.control == Render(s).control
  {
  }

  /** A position fix shows exactly the coordinate text, in black. */
  lemma PositionShowsCoordinates(s: State, latitude: string, longitude: string)
    ensures var v := Render(ShowPosition(s, latitude, longitude));
      v.status == PositionText(latitude, longitude) && v.color == Black
      && v.control == Render(s).control
  {
  }

  /** The fix at 37.7749, -122.4194 reads exactly as the browser prints it. */
  lemma ExampleCoordinates(s: State)
    ensures Render(ShowPosition(s, "37.7749", "-122.4194")).status
      == "Latitude: 37.7749, Longitude: -122.4194"
  {
  }

  /** An error shows its message in red and keeps the button as it was. */
  lemma ErrorShowsMessage(s: State, code: int)
    ensures var v := Render(HandleError(s, code));
      v.status == ErrorMessage(code) && v.color == Red && v.control == Render(s).control
  {
  }

  /** Stop shows "Tracking stopped." only when there is no error; an error
      shown before Stop is still shown after it. */
  lemma StopShowsErrorOrStopped(s: State)
    ensures var v := Render(StopTracking(s).next);
      && v.control == StartButton
      && (s.error == "" ==> v.status == StoppedMessage && v.color == Black)
      && (s.error != "" ==> v.status == s.error && v.color == Red)
  {
  }

  /** Error followed by Stop: the error message stays on screen. */
  lemma ErrorThenStopKeepsError(s: State, code: int)
    ensures Render(StopTracking(HandleError(s, code)).next).status == ErrorMessage(code)
  {
  }

  /** Start, a position fix, then Stop: the display reads "Tracking
      stopped." and no watch is stored. */
  lemma StartPositionStop(s: State, freshId: nat, latitude: string, longitude: string)
    ensures var r := Run(s, [Start(true, freshId), Position(latitude, longitude), Stop]);
      Render(r).status == StoppedMessage && r.watchId == None
  {
    var events := [Start(true, freshId), Position(latitude, longitude), Stop];
    var s1 := Step(s, events[0]).next;
    var s2 := Step(s1, events[1]).next;
    var s3 := Step(s2, events[2]).next;
    assert events[1..][1..] == [Stop] && [Stop][1..] == [];
    assert Run(s, events) == Run(s1, events[1..]) == Run(s2, [Stop]) == s3;
  }

  /** A timeout during a live watch shows the timeout message and leaves
      the watch running. */
  lemma TimeoutKeepsTracking(s: State, freshId: nat)
    requires s.watchId.None?
    ensures var r := Run(s, [Start(true, freshId), PositionError(TIMEOUT)]);
      Render(r).status == TimeoutMessage && r.tracking && r.watchId == Some(freshId)
      && r.location == ""
  {
    var events := [Start(true, freshId), PositionError(TIMEOUT)];
    var s1 := Step(s, events[0]).next;
    var s2 := Step(s1, events[1]).next;
    assert events[1..] == [PositionError(TIMEOUT)] && events[1..][1..] == [];
    assert Run(s, events) == Run(s1, events[1..]) == s2;
  }
}
