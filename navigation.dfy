/** The navigation dialog: the deep links to Google Maps, Waze and Apple Maps
    built from the user's position and the chosen spot, and the dialog's
    state (the user's position, the location error, and the distance and
    duration shown). Numbers enter the links through `show`, the rendering
    of a JavaScript number as text, which the model leaves open. */
module Navigation {
  import opened Spots
  import opened QueryString

  /** The key of the three navigation buttons. */
  datatype NavApp = Google | Waze | Apple

  /** The user's position as the browser reports it. */
  datatype Coords = Coords(latitude: real, longitude: real)

  /** A `window.open(url, target)` call. */
  datatype WindowOpen = WindowOpen(url: string, target: string)

  const LocationErrorMessage: string :=
    "Por favor habilita los servicios de ubicación para usar la navegación"

  const GoogleBase: string := "https://www.google.com/maps/dir/"
  const WazeBase: string := "https://www.waze.com/ul"
  const AppleBase: string := "maps://maps.apple.com/"

  /** `lat,lng` as the links write a coordinate pair. */
  function PairText(show: real -> string, lat: real, lng: real): string {
    show(lat) + "," + show(lng)
  }

  /** The link table of `handleNavigate`. */
  function NavigationUrl(app: NavApp, user: Coords, spot: ParkingSpot, show: real -> string): string {
    var latitude := user.latitude;
    var longitude := user.longitude;
    var destination := show(spot.lat) + "," + show(spot.lng);
    match app
    case Google =>
      "https://www.google.com/maps/dir/?api=1&origin=" + show(latitude) + "," + show(longitude)
      + "&destination=" + destination + "&travelmode=driving"
    case Waze =>
      "https://www.waze.com/ul?ll=" + show(spot.lat) + "," + show(spot.lng) + "&navigate=yes"
    case Apple =>
      "maps://maps.apple.com/?saddr=" + show(latitude) + "," + show(longitude)
      + "&daddr=" + show(spot.lat) + "," + show(spot.lng) + "&dirflg=d"
  }

  /** A number's text never contains a query delimiter. */
  predicate ShowsPlain(show: real -> string, user: Coords, spot: ParkingSpot) {
    && Plain(show(user.latitude)) && Plain(show(user.longitude))
    && Plain(show(spot.lat)) && Plain(show(spot.lng))
  }

  lemma PairTextIsPlain(show: real -> string, lat: real, lng: real)
    requires Plain(show(lat)) && Plain(show(lng))
    ensures Plain(PairText(show, lat, lng))
  {
  }

  /** The three spellings of a template literal's fixed text that the
      proofs below use: the text up to the first value, and the separators
      between values, each broken at its '?', '=' and '&'. */
  lemma GoogleLiterals()
    ensures "https://www.google.com/maps/dir/?api=1&origin="
         == GoogleBase + "?" + ("api" + "=" + "1" + "&") + ("origin" + "=")
    ensures "&destination=" == "&" + ("destination" + "=")
    ensures "&travelmode=driving" == "&" + ("travelmode" + "=" + "driving")
  {
  }

  lemma WazeLiterals()
    ensures "https://www.waze.com/ul?ll=" == WazeBase + "?" + ("ll" + "=")
    ensures "&navigate=yes" == "&" + ("navigate" + "=" + "yes")
  {
  }

  lemma AppleLiterals()
    ensures "maps://maps.apple.com/?saddr=" == AppleBase + "?" + ("saddr" + "=")
    ensures "&daddr=" == "&" + ("daddr" + "=")
    ensures "&dirflg=d" == "&" + ("dirflg" + "=" + "d")
  {
  }

  /** Regrouping a concatenation; string concatenation is associative. */
  lemma RegroupTwoValues(l: string, b: string, q: string, x0: string, x1: string,
                         o1: string, c: string, o2: string, dl: string, x2: string, x3: string,
                         d: string, t: string, x4: string, x5: string)
    requires l == b + q + x0 + x1 && dl == x2 + x3 && t == x4 + x5
    ensures l + o1 + c + o2 + dl + d + t == b + q + (x0 + (x1 + (o1 + c + o2) + x2 + (x3 + d + x4 + x5)))
  {
  }

  lemma RegroupOneValue(l: string, b: string, q: string, x1: string,
                        o1: string, c: string, o2: string, t: string, x4: string, x5: string)
    requires l == b + q + x1 && t == x4 + x5
    ensures l + o1 + c + o2 + t == b + q + (x1 + (o1 + c + o2) + x4 + x5)
  {
  }

  lemma RegroupTwoPairs(l: string, b: string, q: string, x1: string,
                        o1: string, c: string, o2: string, dl: string, x2: string, x3: string,
                        d1: string, d2: string, t: string, x4: string, x5: string)
    requires l == b + q + x1 && dl == x2 + x3 && t == x4 + x5
    ensures l + o1 + c + o2 + dl + d1 + c + d2 + t
         == b + q + (x1 + (o1 + c + o2) + x2 + (x3 + (d1 + c + d2) + x4 + x5))
  {
  }

  /** The query parameters of each link, in the order the template writes
      them. */
  function LinkParams(app: NavApp, user: Coords, spot: ParkingSpot, show: real -> string): seq<(string, string)> {
    var origin := PairText(show, user.latitude, user.longitude);
    var destination := PairText(show, spot.lat, spot.lng);
    match app
    case Google => [("api", "1"), ("origin", origin), ("destination", destination), ("travelmode", "driving")]
    case Waze => [("ll", destination), ("navigate", "yes")]
    case Apple => [("saddr", origin), ("daddr", destination), ("dirflg", "d")]
  }

  function BaseOf(app: NavApp): string {
    match app
    case Google => GoogleBase
    case Waze => WazeBase
    case Apple => AppleBase
  }

  /** Every link is its app's base address, '?', and its parameters
      rendered as a query string. */
  lemma NavigationUrlIsRendered(app: NavApp, user: Coords, spot: ParkingSpot, show: real -> string)
    ensures NavigationUrl(app, user, spot, show) == BaseOf(app) + "?" + Render(LinkParams(app, user, spot, show))
  {
    var a, b := show(user.latitude), show(user.longitude);
    var c, d := show(spot.lat), show(spot.lng);
    match app {
      case Google =>
        GoogleLiterals();
        RegroupTwoValues("https://www.google.com/maps/dir/?api=1&origin=", GoogleBase, "?",
                         "api" + "=" + "1" + "&", "origin" + "=", a, ",", b,
                         "&destination=", "&", "destination" + "=", c + "," + d,
                         "&travelmode=driving", "&", "travelmode" + "=" + "driving");
        RenderFour("api", "1", "origin", PairText(show, user.latitude, user.longitude),
                   "destination", PairText(show, spot.lat, spot.lng), "travelmode", "driving");
      case Waze =>
        WazeLiterals();
        RegroupOneValue("https://www.waze.com/ul?ll=", WazeBase, "?", "ll" + "=", c, ",", d,
                        "&navigate=yes", "&", "navigate" + "=" + "yes");
        RenderTwo("ll", PairText(show, spot.lat, spot.lng), "navigate", "yes");
      case Apple =>
        AppleLiterals();
        RegroupTwoPairs("maps://maps.apple.com/?saddr=", AppleBase, "?", "saddr" + "=", a, ",", b,
                        "&daddr=", "&", "daddr" + "=", c, d,
                        "&dirflg=d", "&", "dirflg" + "=" + "d");
        RenderThree("saddr", PairText(show, user.latitude, user.longitude),
                    "daddr", PairText(show, spot.lat, spot.lng), "dirflg", "d");
    }
  }

  /** The Google link sends the user's position as `origin`, the spot as
      `destination`, and asks for driving directions. */
  lemma GoogleUrlParams(user: Coords, spot: ParkingSpot, show: real -> string)
    requires ShowsPlain(show, user, spot)
    ensures var url := NavigationUrl(Google, user, spot, show);
      && QueryParam(url, "api") == Some("1")
      && QueryParam(url, "origin") == Some(PairText(show, user.latitude, user.longitude))
      && QueryParam(url, "destination") == Some(PairText(show, spot.lat, spot.lng))
      && QueryParam(url, "travelmode") == Some("driving")
  {
    PairTextIsPlain(show, user.latitude, user.longitude);
    PairTextIsPlain(show, spot.lat, spot.lng);
    NavigationUrlIsRendered(Google, user, spot, show);
    ReadFourParams(GoogleBase, "api", "1", "origin", PairText(show, user.latitude, user.longitude),
                   "destination", PairText(show, spot.lat, spot.lng), "travelmode", "driving");
  }

  /** The Waze link carries the spot as `ll` and has no parameter for the
      user's position. */
  lemma WazeUrlParams(user: Coords, spot: ParkingSpot, show: real -> string)
    requires ShowsPlain(show, user, spot)
    ensures var url := NavigationUrl(Waze, user, spot, show);
      && QueryParam(url, "ll") == Some(PairText(show, spot.lat, spot.lng))
      && QueryParam(url, "navigate") == Some("yes")
      && QueryParam(url, "origin") == None
      && QueryParam(url, "saddr") == None
  {
    PairTextIsPlain(show, spot.lat, spot.lng);
    NavigationUrlIsRendered(Waze, user, spot, show);
    ReadTwoParams(WazeBase, "ll", PairText(show, spot.lat, spot.lng), "navigate", "yes", "origin");
    ReadTwoParams(WazeBase, "ll", PairText(show, spot.lat, spot.lng), "navigate", "yes", "saddr");
  }

  /** The Waze link is the same whatever the user's position. */
  lemma WazeUrlIgnoresUser(user1: Coords, user2: Coords, spot: ParkingSpot, show: real -> string)
    ensures NavigationUrl(Waze, user1, spot, show) == NavigationUrl(Waze, user2, spot, show)
  {
  }

  /** The Apple link sends the user's position as `saddr`, the spot as
      `daddr`, and asks for driving directions. */
  lemma AppleUrlParams(user: Coords, spot: ParkingSpot, show: real -> string)
    requires ShowsPlain(show, user, spot)
    ensures var url := NavigationUrl(Apple, user, spot, show);
      && QueryParam(url, "saddr") == Some(PairText(show, user.latitude, user.longitude))
      && QueryParam(url, "daddr") == Some(PairText(show, spot.lat, spot.lng))
      && QueryParam(url, "dirflg") == Some("d")
  {
    PairTextIsPlain(show, user.latitude, user.longitude);
    PairTextIsPlain(show, spot.lat, spot.lng);
    NavigationUrlIsRendered(Apple, user, spot, show);
    ReadThreeParams(AppleBase, "saddr", PairText(show, user.latitude, user.longitude),
                    "daddr", PairText(show, spot.lat, spot.lng), "dirflg", "d");
  }

  /** The parameter through which each app receives the spot. */
  function DestinationKey(app: NavApp): string {
    match app
    case Google => "destination"
    case Waze => "ll"
    case Apple => "daddr"
  }

  /** Whichever app is chosen, its link leads to the spot. */
  lemma NavigationUrlLeadsToSpot(app: NavApp, user: Coords, spot: ParkingSpot, show: real -> string)
    requires ShowsPlain(show, user, spot)
    ensures QueryParam(NavigationUrl(app, user, spot, show), DestinationKey(app))
         == Some(PairText(show, spot.lat, spot.lng))
  {
    match app {
      case Google => GoogleUrlParams(user, spot, show);
      case Waze => WazeUrlParams(user, spot, show);
      case Apple => AppleUrlParams(user, spot, show);
    }
  }

  lemma BaseLetters()
    ensures |GoogleBase| > 12 && GoogleBase[0] == 'h' && GoogleBase[12] == 'g'
    ensures |WazeBase| > 12 && WazeBase[0] == 'h' && WazeBase[12] == 'w'
    ensures |AppleBase| > 12 && AppleBase[0] == 'm'
  {
  }

  /** Every link opens with its app's base address. */
  lemma NavigationUrlStartsWithBase(app: NavApp, user: Coords, spot: ParkingSpot, show: real -> string)
    ensures var url := NavigationUrl(app, user, spot, show);
      |BaseOf(app)| < |url| && url[..|BaseOf(app)|] == BaseOf(app)
  {
    NavigationUrlIsRendered(app, user, spot, show);
    BaseIsPrefix(NavigationUrl(app, user, spot, show), BaseOf(app), Render(LinkParams(app, user, spot, show)));
  }

  lemma BaseIsPrefix(url: string, base: string, query: string)
    requires url == base + "?" + query
    ensures |base| < |url| && url[..|base|] == base
  {
  }

  /** Each key selects its own link: different keys never give the same URL. */
  lemma NavigationUrlsDistinct(app1: NavApp, app2: NavApp, user: Coords, spot: ParkingSpot, show: real -> string)
    requires app1 != app2
    ensures NavigationUrl(app1, user, spot, show) != NavigationUrl(app2, user, spot, show)
  {
    var u1 := NavigationUrl(app1, user, spot, show);
    var u2 := NavigationUrl(app2, user, spot, show);
    NavigationUrlStartsWithBase(app1, user, spot, show);
    NavigationUrlStartsWithBase(app2, user, spot, show);
    BaseLetters();
    assert u1[0] == u1[..|BaseOf(app1)|][0] && u1[12] == u1[..|BaseOf(app1)|][12];
    assert u2[0] == u2[..|BaseOf(app2)|][0] && u2[12] == u2[..|BaseOf(app2)|][12];
  }

  /** The dialog. The page keeps one dialog mounted while the selected spot
      changes, so `spot` is a prop that a re-render replaces while the
      dialog's own state stays. */
  class NavigationModal {
    var spot: ParkingSpot
    var userLocation: Option<Coords>
    var locationError: string
    var distance: string
    var duration: string

    constructor (spot: ParkingSpot)
      ensures this.spot == spot && userLocation == None
      ensures locationError == "" && distance == "" && duration == ""
    {
      this.spot := spot;
      userLocation := None;
      locationError := "";
      distance := "";
      duration := "";
    }

    /** A re-render with another selected spot: the effect depends on
        `isOpen` only, so the position, the error text, the distance and the
        duration found for the previous spot stay, and with them whether
        the navigation buttons are enabled. */
    method SetSpot(newSpot: ParkingSpot)
      modifies this
      ensures spot == newSpot
      ensures userLocation == old(userLocation) && locationError == old(locationError)
      ensures distance == old(distance) && duration == old(duration)
      ensures NavigateDisabled() == old(NavigateDisabled())
    {
      spot := newSpot;
    }

    /** The navigation buttons are disabled while no position is known. */
    predicate NavigateDisabled()
      reads this
    {
      userLocation.None?
    }

    /** The effect run when `isOpen` changes: on opening, clear the previous
        error and ask for the position (the returned flag stands for that
        request). */
    method OpenEffect(isOpen: bool) returns (positionRequested: bool)
      modifies this
      ensures positionRequested == isOpen
      ensures spot == old(spot)
      ensures locationError == (if isOpen then "" else old(locationError))
      ensures userLocation == old(userLocation)
      ensures distance == old(distance) && duration == old(duration)
    {
      positionRequested := false;
      if isOpen {
        locationError := "";
        positionRequested := true;
      }
    }

    /** The position request succeeded. */
    method OnPosition(position: Coords)
      modifies this
      ensures userLocation == Some(position)
      ensures spot == old(spot)
      ensures distance == "1.2 km" && duration == "5 min"
      ensures locationError == old(locationError)
    {
      userLocation := Some(position);
      distance := "1.2 km";
      duration := "5 min";
    }

    /** The position request failed (for instance, permission denied). */
    method OnPositionError()
      modifies this
      ensures locationError == LocationErrorMessage
      ensures spot == old(spot)
      ensures userLocation == old(userLocation)
      ensures distance == old(distance) && duration == old(duration)
    {
      locationError := LocationErrorMessage;
    }

    /** `handleNavigate`: nothing is opened without a position; otherwise the
        link of the chosen app is opened in a new browsing context. */
    method HandleNavigate(app: NavApp, show: real -> string) returns (request: Option<WindowOpen>)
      ensures request.None? <==> NavigateDisabled()
      ensures request.Some? ==>
        request.value.target == "_blank"
        && request.value.url == NavigationUrl(app, userLocation.value, spot, show)
      ensures request.Some? && ShowsPlain(show, userLocation.value, spot) ==>
        QueryParam(request.value.url, DestinationKey(app)) == Some(PairText(show, spot.lat, spot.lng))
    {
      if userLocation.None? {
        return None;
      }
      var latitude := userLocation.value.latitude;
      var longitude := userLocation.value.longitude;
      var google := NavigationUrl(Google, Coords(latitude, longitude), spot, show);
      var waze := NavigationUrl(Waze, Coords(latitude, longitude), spot, show);
      var apple := NavigationUrl(Apple, Coords(latitude, longitude), spot, show);
      var url := match app
        case Google => google
        case Waze => waze
        case Apple => apple;
      request := Some(WindowOpen(url, "_blank"));
      if ShowsPlain(show, userLocation.value, spot) {
        NavigationUrlLeadsToSpot(app, userLocation.value, spot, show);
      }
    }
  }
}
