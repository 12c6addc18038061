# Geolocation tracker — Dafny model

This project models the one piece of logic in a small Next.js application: the
`GeolocationComponent`, a React component that watches the device position
through the browser's Geolocation API. It shows the coordinates, or a
readable error, and offers a Start/Stop button.

The model lives in one module, `Geolocation` (`geolocation.dfy`):

- `State` holds the component's four pieces of state: `location`, `error`,
  `tracking` and `watchId` (an `Option<nat>` standing for the `number | null`
  ref).
- `StartTracking`, `StopTracking`, `ShowPosition` and `HandleError` are the
  four handlers. Each is a pure function from the old state to the new state.
  The two user actions also return the `Request` they make of the provider:
  `WatchPosition` with its options, `ClearWatch`, or `NoRequest`.
- `Step` dispatches an `Event` to the matching handler. `Run` applies a
  sequence of events in order.
- `Render` is the projection from state to screen: which button is shown,
  the status line, and its colour.
- `System` pairs the component with the set of watch ids the provider is
  serving. This lets "at most one live watch" be stated about both sides.
  The provider carries out the component's requests. It also drops a watch
  on its own when the watch reports a permission denial, as the "request a
  position" steps of the W3C Geolocation API prescribe. `Feasible` says that
  the provider only calls back while a watch is live.

The browser is replaced by parameters. A start event carries whether
`navigator.geolocation` exists and the id that `watchPosition` returns.
Coordinates are carried as the text the browser prints for them. Support is
a parameter of each start, so the model also admits runs where it changes
from one press to the next, which a real page never does. Every lemma about
runs covers all of them, so this only makes the lemmas more general.

Behaviour worth knowing, all of it in the model:

- An unsupported start changes only the error. It leaves `tracking` and the
  stored watch as they were.
- Start clears the error only when it creates a new watch, not when a watch
  is already live.
- Stop never clears the error, so an error shown before Stop is still shown
  after it.
- After a permission denial the browser no longer serves the watch, but the
  component keeps its id and the Stop button. Pressing Stop clears an id the
  browser has already dropped and returns to the idle state.

## Model

| member | source | states |
|---|---|---|
| Geolocation.Initial | components/GeolocationComponent.tsx:5-8 | A mounted component starts with empty texts, not tracking, no watch id, and satisfies the tracking/watch invariant |
| Geolocation.StartTracking | components/GeolocationComponent.tsx:16-37 | Unsupported: only the error changes (to the not-supported message) and nothing is requested. Supported with a live watch: a complete no-op. Supported and idle: requests one watch with the fixed options, stores its id, sets tracking, clears the error, keeps the location |
| Geolocation.StopTracking | components/GeolocationComponent.tsx:39-46 | Always ends with no watch id, not tracking and location "Tracking stopped."; keeps the error; clears the stored watch exactly when one exists |
| Geolocation.ShowPosition | components/GeolocationComponent.tsx:10-14 | Location becomes exactly "Latitude: {lat}, Longitude: {lon}", the error is cleared, tracking and watch id are untouched |
| Geolocation.ErrorMessage | components/GeolocationComponent.tsx:49-61 | Permission denied, position unavailable and timeout (codes 1, 2, 3) each get their fixed message; every other code gets the unknown-error message |
| Geolocation.HandleError | components/GeolocationComponent.tsx:48-63 | The error becomes the code's message and the location is blanked; the tracking flag and the stored watch id are kept |
| Geolocation.Step | components/GeolocationComponent.tsx:10-63 | Callbacks never make a provider request, and every event preserves "tracking exactly when a watch id is stored" |
| Geolocation.Render | components/GeolocationComponent.tsx:72-88 | Start button exactly when not tracking; status is the error if non-empty, else the location if non-empty, else "Waiting for location..."; red exactly when there is an error |
| Geolocation.RunPreservesInv | components/GeolocationComponent.tsx:16-46 | The tracking/watch invariant holds after any sequence of events from a state that satisfies it |
| Geolocation.ReachableInv | components/GeolocationComponent.tsx:5-8 | Every state reachable from the initial state satisfies the invariant |
| Geolocation.SystemStep | components/GeolocationComponent.tsx:22-63 | One event with the provider's reaction. The provider never serves a watch the component has not stored; a permission denial leaves it serving none; otherwise exact agreement is kept |
| Geolocation.SystemRunConsistent | components/GeolocationComponent.tsx:22-43 | Over any run, the provider serves at most the watch the component has stored, so at most one watch |
| Geolocation.ProviderMatchesWithoutDenial | components/GeolocationComponent.tsx:22-43 | Over any run with no permission denial, the provider serves exactly the watch the component has stored |
| Geolocation.AtMostOneLiveWatch | components/GeolocationComponent.tsx:22-43 | From mount, at most one watch is live, it is the stored one, and a live watch means tracking |
| Geolocation.TrackingIffLiveWithoutDenial | components/GeolocationComponent.tsx:22-43 | From mount, over any run with no permission denial, tracking (the Stop button) holds exactly when the provider serves a watch |
| Geolocation.PermissionDeniedLeavesStaleWatch | components/GeolocationComponent.tsx:48-63 | After Start and a permission denial, the provider serves no watch but the component still shows Stop with the denial message and stores the id; no callback can arrive; Stop clears that id and returns to idle |
| Geolocation.RepeatedStartRequestsAtMostOnce | components/GeolocationComponent.tsx:16-37 | Any number of Start presses request at most one watch. None if a watch is already live; otherwise exactly one iff some press finds geolocation supported |
| Geolocation.StoppedStaysStopped | components/GeolocationComponent.tsx:17-46 | After Stop, with no supported Start, stops and unsupported starts keep "Tracking stopped." with no live watch, since no callback can arrive |
| Geolocation.StopIdempotent | components/GeolocationComponent.tsx:39-46 | A second Stop changes nothing and asks the provider for nothing |
| Geolocation.StatusNeverBlank | components/GeolocationComponent.tsx:88 | The status line is never empty and is always the error, the location or the waiting placeholder |
| Geolocation.ErrorMessageIdentifiesCode | components/GeolocationComponent.tsx:49-61 | Two codes with the same message are equal, or both lie outside the three standard codes |
| Geolocation.PositionTextInjective | components/GeolocationComponent.tsx:12 | For printed numbers (which contain no comma), the coordinate text determines the latitude and longitude it was built from |
| Geolocation.FirstCommaAfterNumber | components/GeolocationComponent.tsx:12 | In a printed latitude followed by ", Longitude: ", the first comma sits right after the latitude |
| Geolocation.UnsupportedStartShowsError | components/GeolocationComponent.tsx:17-20 | An unsupported Start shows "Geolocation is not supported by this browser." in red and keeps the button |
| Geolocation.PositionShowsCoordinates | components/GeolocationComponent.tsx:10-14 | A position fix shows exactly the coordinate text, in black, and keeps the button |
| Geolocation.ExampleCoordinates | components/GeolocationComponent.tsx:12 | The fix 37.7749, -122.4194 shows "Latitude: 37.7749, Longitude: -122.4194" |
| Geolocation.ErrorShowsMessage | components/GeolocationComponent.tsx:48-63 | An error callback shows the code's message in red and keeps the button |
| Geolocation.StopShowsErrorOrStopped | components/GeolocationComponent.tsx:39-46 | After Stop the Start button is shown; the status is "Tracking stopped." in black with no error, otherwise the old error in red |
| Geolocation.ErrorThenStopKeepsError | components/GeolocationComponent.tsx:39-46 | After an error and then Stop, the error message, not "Tracking stopped.", is on screen |
| Geolocation.StartPositionStop | components/GeolocationComponent.tsx:10-46 | Start, a fix, then Stop, from any state, shows "Tracking stopped." with no watch stored |
| Geolocation.TimeoutKeepsTracking | components/GeolocationComponent.tsx:22-63 | A timeout during a fresh watch shows the timeout message, blanks the location and leaves the watch live |

## Left out

- The real `navigator.geolocation.watchPosition` and `clearWatch` calls are foreign browser APIs. Support and the returned id are parameters of the start event. The provider is modelled only as the set of live watch ids that the requests add to and remove from.
- The watch options (high accuracy, maximum age 0, timeout 1000 ms) are recorded as the constant `TrackingOptions` carried by each watch request. Nothing in the component depends on them.
- Latitude and longitude are floating-point numbers that JavaScript prints. They are carried as the printed text; number formatting is not modelled.
- Geolocation.PositionTextInjective: assumes the printed numbers contain no comma. JavaScript number printing never produces one, but that printing is not modelled.
- React's `useState` and `useRef`, batched asynchronous state updates and re-render scheduling are not modelled. Each handler is one atomic transition.
- The JSX layout, headings and Tailwind classes are presentation only and are left out. The button and the status line, with its colour, are kept.
- Cancelling the watch on unmount is not modelled. The component has no effect cleanup, so unmounting while tracking leaves the browser watch running.
- The provider's own behaviour is modelled only as far as the component can observe it. The provider runs the component's requests, drops a watch on a permission denial, and calls back only while a watch is live. Its polling schedule and its retries are left out.
