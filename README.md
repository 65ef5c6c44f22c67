# Parkat parking finder — verified model of the page logic

Parkat is a small web application that shows nearby parking spots in
Barcelona on a map and in a list. The user picks a spot and is sent to a
navigation app. This project models the parts of it that hold logic and
proves properties of that model in Dafny:

- **the spot list** (`spots.dfy`, `distance_sort.dfy`). The list is sorted
  by the number at the front of each spot's `distance` text, read the way
  JavaScript's `parseInt` reads it. The sort is a stable sort of a copy of
  the list.
- **the selection state of the main page** (`selection.dfy`). This covers
  the selected spot, the index of the current card and the navigation
  dialog flag. It also covers the handlers that change them: card and
  marker clicks, the spots menu, the next and previous buttons, "park now"
  and closing the dialog. A pure transition function `Step` specifies the
  state changes. The class `App` holds the same fields, and each handler
  promises `State() == Step(old(State()), action)`. The exception is
  `HandleSpotSelect`, the shared helper behind the click and menu handlers,
  which promises `State() == SelectSpot(old(State()), spot, index)`.
- **the fallback map's viewport** (`simple_map.dfy`). This covers the zoom
  clamped to 10..19, the arrow-button pan, the bounding box derived from
  centre and zoom, the linear projection onto the container's pixels and
  the test that decides which markers are drawn. The class `MapView` holds
  centre, zoom and bounds.
- **the navigation dialog** (`navigation.dfy`, `query.dfy`). This covers
  the Google Maps, Waze and Apple Maps deep links built from the user's
  position and the spot, the "location known" guard and the dialog state.
  A small query-string reader states what each link says: the value a
  navigation app finds for `origin`, `destination`, `ll`, `saddr` and the
  other parameters.

Coordinates are exact reals. Numbers enter the links through a parameter
`show: real -> string`, which stands for JavaScript's number-to-text
conversion.

## Model

| member | source | states |
|---|---|---|
| DistanceSort.ParseLeadingInt | app/page.tsx:42 | `parseInt` of a distance, for text without leading whitespace or sign: no number exactly when the text is empty or does not start with a digit |
| DistanceSort.DistanceKey | app/page.tsx:42 | definition: the number the comparator subtracts, `parseInt(spot.distance)` |
| DistanceSort.DigitRunIsMaximal | app/page.tsx:42 | the digits `parseInt` reads are all digits and stop at the first non-digit |
| DistanceSort.ParseRenderedDistance | app/page.tsx:42 | reading a rendered number followed by a unit such as "m" gives the number back |
| DistanceSort.InsertBy | app/page.tsx:42 | inserting into a sorted list adds one element and keeps the list sorted by the key |
| DistanceSort.InsertByPermutes | app/page.tsx:42 | inserting adds exactly that element to the multiset of spots |
| DistanceSort.SortBy | app/page.tsx:42 | the sort returns a permutation of its input, non-decreasing by the key |
| DistanceSort.SortByDistance | app/page.tsx:41-42 | the list sorted by distance is a permutation of the input, ordered by the number `parseInt` reads from each distance |
| DistanceSort.InsertWithKey | app/page.tsx:42 | insertion places the new spot ahead of the spots with the same key |
| DistanceSort.SortByIsStable | app/page.tsx:42 | spots with equal keys keep their relative order |
| DistanceSort.SortByDistanceIsStable | app/page.tsx:41-42 | the distance sort is stable, like `Array.prototype.sort` |
| DistanceSort.SortedInputIsFixed | app/page.tsx:42 | an already sorted list comes back unchanged |
| DistanceSort.SortedListIsUnchanged | app/page.tsx:41-42 | a list already in distance order is returned as it is |
| DistanceSort.DemoDistanceKeys | data/spots.ts:20-97 | each demo distance text ("120m" … "450m") reads as its number |
| DistanceSort.DemoSpotsAlreadySorted | data/spots.ts:12-101 | the demo list, whatever coordinates it draws, is numeric and already in distance order, so sorting it changes nothing |
| DistanceSort.SortSpotsByDistance | app/page.tsx:41-42 | sorting returns a fresh array equal to the sorted list and leaves the input array unchanged |
| Selection.FindIndex | app/page.tsx:211 | `findIndex` by id: the first position with that id, or -1 exactly when no spot has it |
| Selection.IsSelected | app/page.tsx:197 | definition: a card or marker is highlighted when a spot is selected and its id equals the selected id |
| Selection.PrevDisabled | app/page.tsx:300 | definition: "previous" is disabled when the index is 0 |
| Selection.NextDisabled | app/page.tsx:309 | definition: "next" is disabled when the index is at least the list length minus one |
| Selection.ParkNowDisabled | app/page.tsx:377 | definition: "park now" is disabled while no spot is selected |
| Selection.SelectSpot | app/page.tsx:125-131 | definition: `handleSpotSelect` sets the selected spot and the index and keeps the dialog flag |
| Selection.Step | app/page.tsx:125-151 | every handler keeps the index -1, a position of the list, or the initial 0 when the list is empty |
| Selection.Run | app/page.tsx:125-151 | the same holds after any sequence of page actions |
| Selection.MenuSelectIndex | app/page.tsx:210-212 | a menu choice selects that spot, sets the index to the first position with its id (-1 if absent) and leaves the dialog flag alone |
| Selection.NextDisabledIffNoOp | app/page.tsx:133-137 | "next" is disabled (line 309) exactly when it would do nothing; otherwise it selects the following spot and raises the index by one |
| Selection.PrevDisabledIffNoOp | app/page.tsx:139-143 | "previous" is disabled (line 300) exactly when it would do nothing, for every list index; otherwise it selects the preceding spot and lowers the index by one; at index -1 it is enabled but does nothing |
| Selection.ParkNowOpensOnlyWithSelection | app/page.tsx:145-151 | "park now" opens the dialog only with a spot selected; without one (the disabled case, line 377) the state is unchanged |
| Selection.StepKeepsSynced | app/page.tsx:125-143 | one page action keeps the index in bounds and the card at the index showing the selected spot |
| Selection.RunKeepsSynced | app/page.tsx:125-143 | any sequence of page actions keeps the index in bounds and list and map in step |
| Selection.ReachableStatesAreSynced | app/page.tsx:80-86 | from the initial state over a non-empty list, every reachable state has `0 <= currentIndex < length` and the card at the index shows the selected spot |
| Selection.HighlightIsAtCurrentIndex | app/page.tsx:197 | with distinct ids, `isSelected` highlights exactly the card at the current index |
| Selection.App.constructor | app/page.tsx:80-86 | the page starts with nothing selected, index 0, the dialog closed and the sorted list |
| Selection.App.HandleSpotSelect | app/page.tsx:125-131 | selecting sets the spot and the index and leaves the dialog flag unchanged |
| Selection.App.OnSpotClick | app/page.tsx:321-324 | a card or marker click (lines 240-245 for markers) selects the spot at that index |
| Selection.App.OnMenuSelect | app/page.tsx:210-212 | a menu choice selects the spot at the index `findIndex` gives |
| Selection.App.ScrollNext | app/page.tsx:133-137 | "next" acts as `Step` with `Next` |
| Selection.App.ScrollPrev | app/page.tsx:139-143 | "previous" acts as `Step` with `Prev` |
| Selection.App.HandleParkNow | app/page.tsx:145-151 | "park now" acts as `Step` with `ParkNow` |
| Selection.App.CloseNavigation | app/page.tsx:398 | closing the dialog clears the flag and nothing else |
| SimpleMap.ZoomScale | components/simple-map.tsx:40 | `2^(zoom-15)` is positive |
| SimpleMap.PanStep | components/simple-map.tsx:53 | the pan step is positive |
| SimpleMap.HalfRange | components/simple-map.tsx:40-41 | the half-size of the displayed box is positive |
| SimpleMap.HalfRangeIsFivePanSteps | components/simple-map.tsx:40-53 | the displayed box reaches five pan steps on each side of the centre |
| SimpleMap.ZoomingInHalvesPanStep | components/simple-map.tsx:53 | one level of zoom in halves the pan step |
| SimpleMap.BoundsAround | components/simple-map.tsx:39-48 | the derived bounds are symmetric about the centre, with north > south and east > west |
| SimpleMap.InitialBoundsAreZoom15 | components/simple-map.tsx:14-21 | the hard-coded starting bounds are the box of zoom 15 around the starting centre, not that of the starting zoom 16 |
| SimpleMap.NextZoom | components/simple-map.tsx:72-77 | a zoom press keeps a zoom in [10, 19] within it |
| SimpleMap.ZoomStepsByOneOrStops | components/simple-map.tsx:74 | zooming in gives `min(prev+1, 19)` and zooming out `max(prev-1, 10)`; at 19 and at 10 they change nothing |
| SimpleMap.ZoomInOutInverse | components/simple-map.tsx:74 | away from the limits, zooming out undoes zooming in and the reverse |
| SimpleMap.ZoomAfterStaysInRange | components/simple-map.tsx:72-77 | any sequence of zoom presses from a zoom in [10, 19] stays in [10, 19] |
| SimpleMap.ZoomFromStartStaysInRange | components/simple-map.tsx:15 | from the starting zoom 16 no sequence of presses leaves [10, 19] |
| SimpleMap.MovedCenter | components/simple-map.tsx:52-68 | "up"/"down" leave `lng` unchanged and "left"/"right" leave `lat` unchanged |
| SimpleMap.MoveChangesOneCoordinate | components/simple-map.tsx:52-68 | each arrow moves its coordinate by exactly the step, in its direction, and the opposite arrow undoes it |
| SimpleMap.CornersMapToContainerEdges | components/simple-map.tsx:24-36 | the north-west corner of the box projects to pixel (0, 0) and the south-east corner to (width, height) |
| SimpleMap.InsideBoundsIsVisible | components/simple-map.tsx:162-171 | every spot inside the displayed box passes the marker test |
| SimpleMap.NoContainerDrawsAtOrigin | components/simple-map.tsx:25 | with no container every marker is placed at (0, 0) and drawn |
| SimpleMap.MapView.constructor | components/simple-map.tsx:14-21 | the viewport starts at the fixed Barcelona centre, zoom 16 and the literal starting bounds |
| SimpleMap.MapView.UpdateBounds | components/simple-map.tsx:39-49 | the bounds effect makes the bounds the box around the current centre and zoom |
| SimpleMap.MapView.HandleZoom | components/simple-map.tsx:72-77 | zooming updates only the zoom (clamped) and the derived bounds |
| SimpleMap.MapView.HandleMapMove | components/simple-map.tsx:52-69 | panning moves the centre by the zoom's pan step, keeps the zoom and rederives the bounds |
| SimpleMap.MapView.CenterOnSpot | components/simple-map.tsx:80-82 | centring puts the centre exactly on the spot and keeps the zoom |
| SimpleMap.CoordToPixel | components/simple-map.tsx:24-36 | definition: (0, 0) without a container, otherwise the linear map of the box onto the container's width and height (see CornersMapToContainerEdges) |
| SimpleMap.IsVisible | components/simple-map.tsx:165-169 | definition: the pixel lies within 20 pixels outside the container, whose size counts as 0 when there is no container |
| SimpleMap.MapView.MarkerVisible | components/simple-map.tsx:162-171 | a marker is drawn exactly when its pixel lies in `[-20, width+20] x [-20, height+20]`, and always when the spot is inside the box |
| Navigation.NavigationUrl | components/navigation-modal.tsx:44-51 | definition: the three link templates, with the user's coordinates as origin and `lat,lng` of the spot as destination |
| Navigation.NavigationUrlIsRendered | components/navigation-modal.tsx:47-51 | each link is its base, '?', and its parameter list rendered as a query string |
| Navigation.GoogleUrlParams | components/navigation-modal.tsx:44-48 | the Google link carries `api=1`, the user's coordinates as `origin`, the spot's as `destination`, and `travelmode=driving` |
| Navigation.WazeUrlParams | components/navigation-modal.tsx:49 | the Waze link carries the spot as `ll` and `navigate=yes`, and has no `origin` or `saddr` |
| Navigation.WazeUrlIgnoresUser | components/navigation-modal.tsx:49 | the Waze link is the same whatever the user's position |
| Navigation.AppleUrlParams | components/navigation-modal.tsx:50 | the Apple link carries the user as `saddr`, the spot as `daddr`, and `dirflg=d` |
| Navigation.NavigationUrlLeadsToSpot | components/navigation-modal.tsx:45-51 | whichever app is chosen, its link sends the spot's coordinates as its destination parameter |
| Navigation.NavigationUrlStartsWithBase | components/navigation-modal.tsx:47-51 | each link starts with its app's base address |
| Navigation.NavigationUrlsDistinct | components/navigation-modal.tsx:47-53 | different app keys never produce the same link |
| Navigation.NavigationModal.constructor | components/navigation-modal.tsx:18-21 | the dialog starts with no position, no error and empty distance and duration |
| Navigation.NavigationModal.OpenEffect | components/navigation-modal.tsx:23-26 | opening clears the previous error and asks for the position; closing changes nothing; the spot, the position, the distance and the duration are kept either way |
| Navigation.NavigationModal.OnPosition | components/navigation-modal.tsx:27-32 | a position fix records it, with the fixed "1.2 km" and "5 min", and keeps the error text and the spot |
| Navigation.NavigationModal.OnPositionError | components/navigation-modal.tsx:33-35 | a failed lookup sets the fixed "enable location services" message and keeps the spot, the position, the distance and the duration |
| Navigation.NavigationModal.NavigateDisabled | components/navigation-modal.tsx:131 | definition: the three navigation buttons are disabled while no position is known (the same condition at lines 119, 131 and 143) |
| Navigation.NavigationModal.SetSpot | app/page.tsx:395-400 | a re-render with another selected spot replaces the spot and keeps the position, the error text, the distance, the duration and whether navigating is enabled, because the effect depends on `isOpen` only (components/navigation-modal.tsx:39) |
| Navigation.NavigationModal.HandleNavigate | components/navigation-modal.tsx:41-54 | nothing is opened exactly when no position is known; otherwise the chosen app's link is opened with target `_blank`, and it leads to the spot |

## Left out

- Google Maps SDK loading, overlays, the directions service, route drawing, `panTo`/`setCenter` and the zoom listeners of app/page.tsx are calls into a foreign library and are not modelled.
- Browser I/O is not modelled: the toasts, `scrollIntoView`, the geolocation lookup and `console.error`. The geolocation answers are the events `OnPosition`/`OnPositionError`. `window.open` is the value that `HandleNavigate` returns.
- `moveCenter(spot.coords)` in `handleSpotSelect` is not modelled. It reads `coords`, a field the spot record (types/spots.ts) does not have.
- The OpenStreetMap iframe URL of components/simple-map.tsx is not modelled.
- Rendering, styling, icons and badges are not modelled.
- components/map.tsx, movo-app.tsx, parking-app.tsx, the spots and user menus, the logo, the layouts and lib/constants.ts are not part of this model. They are presentation or foreign-library code.
- Floating point is idealised as exact reals. This covers the projection, `Math.pow`, the bounds and the pan step. `toFixed` display rounding is not modelled.
- The demo data's coordinates come from `Math.random`. The model takes them as arbitrary reals.
- DistanceSort.SortByDistance: requires every distance to start with a digit. For text with no digit after optional whitespace and sign, `parseInt` gives NaN, the comparator becomes inconsistent, and JavaScript leaves the resulting order implementation-defined. Text that starts with whitespace or a sign before its digits does parse in JavaScript but is outside this model; see the DistanceSort.ParseLeadingInt line below.
- DistanceSort.ParseLeadingInt: leading whitespace, signs, hexadecimal prefixes and precision beyond 2^53 are not modelled, because every distance in the application is a plain digit run followed by a unit. On such text the model reads differently from JavaScript: `parseInt(" 120m")` is 120 and `parseInt("-5m")` is -5, while the model gives no number for either.
- CoordToPixel: requires a box with north > south and east > west. The source would divide by zero otherwise. Every box the bounds effect produces satisfies this.
- Navigation.GoogleUrlParams, Navigation.WazeUrlParams, Navigation.AppleUrlParams and Navigation.NavigationUrlLeadsToSpot: require that the text of each coordinate contains no '&', '=' or '?'. JavaScript's rendering of a finite number never does. The rendering itself is left as the parameter `show`.
- Selection.App.constructor: requires every distance to start with a digit, for the reason given for SortByDistance.
- Selection.Step: requires the index of a `SelectAt` click to be a position of the list. Every click handler the page renders carries such an index.
- Selection.App.OnSpotClick: requires an index of the list. The page only creates handlers for positions of `sortedSpots`.
- React's batching of state updates and re-render timing are not modelled. Each handler's updates are applied at once, and the map's bounds effect runs right after the handler that changed centre or zoom.
