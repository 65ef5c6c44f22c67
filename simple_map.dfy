/** The hand-rolled fallback map: a viewport given by a centre and an integer
    zoom, from which the displayed bounding box is derived; buttons that zoom
    and pan it; a linear projection of coordinates onto the container's
    pixels; and the test that decides which spot markers are drawn.
    Coordinates are exact reals standing for JavaScript's doubles. */
module SimpleMap {
  import opened Spots

  datatype LatLng = LatLng(lat: real, lng: real)

  datatype Bounds = Bounds(north: real, south: real, east: real, west: real)

  datatype Direction = Up | Down | Left | Right

  /** Pixel size of the map container (`offsetWidth`, `offsetHeight`). */
  datatype Size = Size(width: nat, height: nat)

  datatype Pixel = Pixel(x: real, y: real)

  const MinZoom: int := 10
  const MaxZoom: int := 19
  const InitialZoom: int := 16
  const InitialCenter := LatLng(41.3977081, 2.1938499)
  /** The bounds the component starts with, before its bounds effect runs. */
  const InitialBounds := Bounds(41.4027081, 41.3927081, 2.1988499, 2.1888499)
  /** How far outside the container a marker may sit and still be drawn. */
  const MarkerMargin: real := 20.0

  function Pow2(n: nat): (r: real)
    ensures r >= 1.0
  {
    if n == 0 then 1.0 else 2.0 * Pow2(n - 1)
  }

  /** `Math.pow(2, zoom - 15)`, exactly. */
  function ZoomScale(zoom: int): (r: real)
    ensures r > 0.0
  {
    if zoom >= 15 then Pow2(zoom - 15) else 1.0 / Pow2(15 - zoom)
  }

  /** How far one press of an arrow button moves the centre. */
  function PanStep(zoom: int): (r: real)
    ensures r > 0.0
  {
    0.001 / ZoomScale(zoom)
  }

  /** Half the height (and half the width) of the displayed box, in degrees. */
  function HalfRange(zoom: int): (r: real)
    ensures r > 0.0
  {
    0.005 / ZoomScale(zoom)
  }

  /** The displayed box is five pan steps on each side of the centre. */
  lemma HalfRangeIsFivePanSteps(zoom: int)
    ensures HalfRange(zoom) == 5.0 * PanStep(zoom)
  {
  }

  /** One zoom level in halves the pan step. */
  lemma ZoomingInHalvesPanStep(zoom: int)
    ensures PanStep(zoom + 1) * 2.0 == PanStep(zoom)
  {
    if zoom >= 15 {
      assert ZoomScale(zoom + 1) == 2.0 * ZoomScale(zoom);
    } else {
      assert Pow2(15 - zoom) == 2.0 * Pow2(15 - (zoom + 1));
    }
  }

  /** The bounds effect: the box derived from the centre and the zoom. */
  function BoundsAround(center: LatLng, zoom: int): (b: Bounds)
    ensures b.north - center.lat == center.lat - b.south
    ensures b.east - center.lng == center.lng - b.west
    ensures b.north > b.south && b.east > b.west
  {
    var range := HalfRange(zoom);
    Bounds(center.lat + range, center.lat - range, center.lng + range, center.lng - range)
  }

  /** The hard-coded starting bounds are the box of zoom level 15 around the
      starting centre, not that of the starting zoom 16: until the bounds
      effect first runs they disagree with the zoom. */
  lemma InitialBoundsAreZoom15()
    ensures InitialBounds == BoundsAround(InitialCenter, 15)
    ensures InitialBounds != BoundsAround(InitialCenter, InitialZoom)
  {
    assert ZoomScale(16) == 2.0;
  }

  /** The zoom buttons' update: one level in or out, clamped to the range. */
  function NextZoom(prev: int, zoomIn: bool): (r: int)
    ensures MinZoom <= prev <= MaxZoom ==> MinZoom <= r <= MaxZoom
  {
    if zoomIn then (if prev + 1 < MaxZoom then prev + 1 else MaxZoom)
    else (if prev - 1 > MinZoom then prev - 1 else MinZoom)
  }

  /** Zooming moves by exactly one level unless at the matching limit, where
      it changes nothing. */
  lemma ZoomStepsByOneOrStops(prev: int)
    requires MinZoom <= prev <= MaxZoom
    ensures NextZoom(prev, true) == (if prev == MaxZoom then prev else prev + 1)
    ensures NextZoom(prev, false) == (if prev == MinZoom then prev else prev - 1)
  {
  }

  /** Zooming out undoes zooming in, below the top level; zooming in undoes
      zooming out, above the bottom level. */
  lemma ZoomInOutInverse(prev: int)
    requires MinZoom <= prev <= MaxZoom
    ensures prev < MaxZoom ==> NextZoom(NextZoom(prev, true), false) == prev
    ensures prev > MinZoom ==> NextZoom(NextZoom(prev, false), true) == prev
  {
  }

  /** The zoom after a sequence of presses (true: "+", false: "-"). */
  function ZoomAfter(zoom: int, presses: seq<bool>): int
    decreases |presses|
  {
    if presses == [] then zoom else ZoomAfter(NextZoom(zoom, presses[0]), presses[1..])
  }

  lemma {:induction false} ZoomAfterStaysInRange(zoom: int, presses: seq<bool>)
    requires MinZoom <= zoom <= MaxZoom
    ensures MinZoom <= ZoomAfter(zoom, presses) <= MaxZoom
    decreases |presses|
  {
    if presses != [] {
      ZoomAfterStaysInRange(NextZoom(zoom, presses[0]), presses[1..]);
    }
  }

  /** From the starting zoom, no sequence of presses leaves [10, 19]. */
  lemma ZoomFromStartStaysInRange(presses: seq<bool>)
    ensures MinZoom <= ZoomAfter(InitialZoom, presses) <= MaxZoom
  {
    ZoomAfterStaysInRange(InitialZoom, presses);
  }

  /** The arrow buttons' update of the centre. */
  function MovedCenter(prev: LatLng, direction: Direction, amount: real): (r: LatLng)
    ensures direction.Up? || direction.Down? ==> r.lng == prev.lng
    ensures direction.Left? || direction.Right? ==> r.lat == prev.lat
  {
    match direction
    case Up => prev.(lat := prev.lat + amount)
    case Down => prev.(lat := prev.lat - amount)
    case Left => prev.(lng := prev.lng - amount)
    case Right => prev.(lng := prev.lng + amount)
  }

  function Opposite(direction: Direction): Direction {
    match direction
    case Up => Down
    case Down => Up
    case Left => Right
    case Right => Left
  }

  /** A move changes one coordinate by exactly the step, in the button's
      direction (north and east are positive), and the opposite move undoes
      it. */
  lemma MoveChangesOneCoordinate(prev: LatLng, direction: Direction, amount: real)
    requires amount > 0.0
    ensures var r := MovedCenter(prev, direction, amount);
      && (direction.Up? ==> r.lat == prev.lat + amount && r.lat > prev.lat)
      && (direction.Down? ==> r.lat == prev.lat - amount && r.lat < prev.lat)
      && (direction.Right? ==> r.lng == prev.lng + amount && r.lng > prev.lng)
      && (direction.Left? ==> r.lng == prev.lng - amount && r.lng < prev.lng)
    ensures MovedCenter(MovedCenter(prev, direction, amount), Opposite(direction), amount) == prev
  {
  }

  /** `coordToPixel`: the linear map of the displayed box onto the container;
      (0, 0) when there is no container yet. */
  function CoordToPixel(b: Bounds, container: Option<Size>, lat: real, lng: real): Pixel
    requires b.east > b.west && b.north > b.south
  {
    match container
    case None => Pixel(0.0, 0.0)
    case Some(size) =>
      Pixel((lng - b.west) / (b.east - b.west) * size.width as real,
            (b.north - lat) / (b.north - b.south) * size.height as real)
  }

  /** The marker test: the pixel lies within the margin around the container
      (a missing container counts as 0 by 0). */
  predicate IsVisible(p: Pixel, container: Option<Size>) {
    var width := if container.Some? then container.value.width as real else 0.0;
    var height := if container.Some? then container.value.height as real else 0.0;
    -MarkerMargin <= p.x <= width + MarkerMargin && -MarkerMargin <= p.y <= height + MarkerMargin
  }

  /** The north-west corner of the box lands on the container's top-left
      pixel and the south-east corner on its bottom-right pixel. */
  lemma CornersMapToContainerEdges(b: Bounds, size: Size)
    requires b.east > b.west && b.north > b.south
    ensures CoordToPixel(b, Some(size), b.north, b.west) == Pixel(0.0, 0.0)
    ensures CoordToPixel(b, Some(size), b.south, b.east) == Pixel(size.width as real, size.height as real)
  {
  }

  lemma ScaledFractionInRange(num: real, den: real, len: real)
    requires den > 0.0 && 0.0 <= num <= den && len >= 0.0
    ensures 0.0 <= num / den * len <= len
  {
    var f := num / den;
    assert 0.0 <= f <= 1.0;
    assert f * len <= 1.0 * len;
  }

  /** Every spot inside the displayed box is drawn; the margin only adds
      spots just outside it. */
  lemma InsideBoundsIsVisible(b: Bounds, container: Option<Size>, lat: real, lng: real)
    requires b.east > b.west && b.north > b.south
    requires b.south <= lat <= b.north && b.west <= lng <= b.east
    ensures IsVisible(CoordToPixel(b, container, lat, lng), container)
  {
    if container.Some? {
      var size := container.value;
      ScaledFractionInRange(lng - b.west, b.east - b.west, size.width as real);
      ScaledFractionInRange(b.north - lat, b.north - b.south, size.height as real);
    }
  }

  /** Before the container is mounted every marker is placed at (0, 0) and
      drawn. */
  lemma NoContainerDrawsAtOrigin(b: Bounds, lat: real, lng: real)
    requires b.east > b.west && b.north > b.south
    ensures CoordToPixel(b, None, lat, lng) == Pixel(0.0, 0.0)
    ensures IsVisible(CoordToPixel(b, None, lat, lng), None)
  {
  }

  /** The component's viewport state. */
  class MapView {
    var center: LatLng
    var zoom: int
    var bounds: Bounds

    /** The state once the bounds effect has caught up with centre and zoom. */
    ghost predicate Valid()
      reads this
    {
      MinZoom <= zoom <= MaxZoom && bounds == BoundsAround(center, zoom)
    }

    /** The initial state, before the bounds effect first runs. */
    constructor ()
      ensures center == InitialCenter && zoom == InitialZoom && bounds == InitialBounds
    {
      center := InitialCenter;
      zoom := InitialZoom;
      bounds := InitialBounds;
    }

    /** The effect that rewrites the bounds whenever centre or zoom change. */
    method UpdateBounds()
      requires MinZoom <= zoom <= MaxZoom
      modifies this`bounds
      ensures Valid()
    {
      bounds := BoundsAround(center, zoom);
    }

    /** `handleZoom`, followed by the bounds effect. */
    method HandleZoom(zoomIn: bool)
      requires Valid()
      modifies this
      ensures Valid()
      ensures zoom == NextZoom(old(zoom), zoomIn) && center == old(center)
    {
      zoom := NextZoom(zoom, zoomIn);
      UpdateBounds();
    }

    /** `handleMapMove`, followed by the bounds effect. */
    method HandleMapMove(direction: Direction)
      requires Valid()
      modifies this
      ensures Valid()
      ensures center == MovedCenter(old(center), direction, PanStep(old(zoom)))
      ensures zoom == old(zoom)
    {
      var moveAmount := PanStep(zoom);
      center := MovedCenter(center, direction, moveAmount);
      UpdateBounds();
    }

    /** `centerOnSpot`, followed by the bounds effect. */
    method CenterOnSpot(spot: ParkingSpot)
      requires Valid()
      modifies this
      ensures Valid()
      ensures center == LatLng(spot.lat, spot.lng) && zoom == old(zoom)
    {
      center := LatLng(spot.lat, spot.lng);
      UpdateBounds();
    }

    /** Whether the marker of `spot` is drawn. */
    method MarkerVisible(spot: ParkingSpot, container: Option<Size>) returns (visible: bool)
      requires Valid()
      ensures visible == IsVisible(CoordToPixel(bounds, container, spot.lat, spot.lng), container)
      ensures bounds.south <= spot.lat <= bounds.north && bounds.west <= spot.lng <= bounds.east
              ==> visible
    {
      var p := CoordToPixel(bounds, container, spot.lat, spot.lng);
      visible := IsVisible(p, container);
      if bounds.south <= spot.lat <= bounds.north && bounds.west <= spot.lng <= bounds.east {
        InsideBoundsIsVisible(bounds, container, spot.lat, spot.lng);
      }
    }
  }
}
