/**
 * The pick pipeline of the touch view: a tap's screen position is turned into
 * a ray, the ray is intersected with the globe, the hit is rotated by the
 * globe's pitch and converted to longitude and latitude, and the result
 * becomes a marker on the 1920x960 overlay and a coordinate text.
 *
 * NaN, which the source uses to signal "no intersection", is an explicit
 * `None` here: a ray that misses, and a longitude taken at a pole where
 * `x / h` is `0 / 0`.
 */
module Picking {
  import opened JavaMath
  import opened Linear

  datatype Option<T> = None | Some(value: T)

  /** `renderer.radius`: the globe is a sphere of radius 2 about the world origin. */
  const RADIUS: real := 2.0
  /** The hard-coded ray origin of `intersectionPoint`, which ignores its `eye` argument. */
  const ORIGIN: Vec3 := Vec3(0.0, 0.0, 5.0)
  /** `pWidth` and `pHeight`, the size of the overlay bitmap. */
  const MAP_WIDTH: real := 1920.0
  const MAP_HEIGHT: real := 960.0
  /** Latitude margins of the marker band at the two poles. */
  const LOW_POLE_MARGIN: real := 0.3
  const HIGH_POLE_MARGIN: real := 0.4

  /** What a pick reads from the renderer. */
  datatype Scene = Scene(
    xAngle: real,
    yAngle: real,
    viewportWidth: int,
    viewportHeight: int,
    inverseProjection: Mat4,
    inverseView: Mat4)

  /** The result of `getPolar`; `lon` is `None` where the source computes NaN. */
  datatype Polar = Polar(lon: Option<real>, lat: real)

  datatype MapPoint = MapPoint(x: real, y: real)

  /** The text line: cleared, or two unsigned hundredths with hemisphere letters. */
  datatype Text =
    | Cleared
    | Coordinates(longitude: real, lonHemisphere: char, latitude: real, latHemisphere: char)

  /** A marker drawn on the overlay (`None`: the overlay is left as it was) and the text shown. */
  datatype PickResult = PickResult(marker: Option<MapPoint>, text: Text)

  // ---------------------------------------------------------------------------
  // castRay

  /**
   * A screen coordinate in normalised device coordinates, `2 pos / size - 1`.
   * It runs from -1 at 0 to 1 at `size`; the y axis is not flipped.
   */
  function Ndc(pos: real, size: int): (r: real)
    requires size != 0
    ensures (r + 1.0) * size as real == 2.0 * pos
  {
    (2.0 * pos) / size as real - 1.0
  }

  /** The screen from 0 to `size` covers exactly [-1, 1]. */
  lemma {:induction false} NdcRange(pos: real, size: int)
    requires size > 0 && 0.0 <= pos <= size as real
    ensures -1.0 <= Ndc(pos, size) <= 1.0
  {
    var u := Ndc(pos, size) + 1.0;
    ScaleLe(u, 2.0, size as real);
    ScaleLe(0.0, u, size as real);
  }

  /** A larger screen coordinate gives a larger NDC coordinate: no flip on either axis. */
  lemma {:induction false} NdcKeepsOrder(p1: real, p2: real, size: int)
    requires size > 0 && p1 < p2
    ensures Ndc(p1, size) < Ndc(p2, size)
  {
    ScaleLt(Ndc(p1, size) + 1.0, Ndc(p2, size) + 1.0, size as real);
  }

  /** The touched point on the near plane, carried back by the inverse projection. */
  function Unproject(posX: real, posY: real, s: Scene): (u: Vec4)
    requires s.viewportWidth != 0 && s.viewportHeight != 0
    ensures s.inverseProjection == IDENTITY ==>
      u == Vec4(Ndc(posX, s.viewportWidth), Ndc(posY, s.viewportHeight), -1.0, 1.0)
    ensures IsAffine(s.inverseProjection) ==> u.w == 1.0
  {
    MulMatVec(s.inverseProjection, Vec4(Ndc(posX, s.viewportWidth), Ndc(posY, s.viewportHeight), -1.0, 1.0))
  }

  /**
   * `castRay`: unproject the touch, force the result to the direction
   * `(x, y, -1, 0)` and carry it back to world space by the inverse view
   * matrix. Whatever the inverse projection, the result is a direction
   * (w = 0) under an affine inverse view; with both inverses the identity
   * it is the touch's normalised device position at depth -1.
   */
  function CastRay(posX: real, posY: real, s: Scene): (ray: Vec4)
    requires s.viewportWidth != 0 && s.viewportHeight != 0
    ensures IsAffine(s.inverseView) ==> ray.w == 0.0
    ensures s.inverseProjection == IDENTITY && s.inverseView == IDENTITY ==>
      ray == Vec4(Ndc(posX, s.viewportWidth), Ndc(posY, s.viewportHeight), -1.0, 0.0)
  {
    var p := Unproject(posX, posY, s);
    MulMatVec(s.inverseView, Vec4(p.x, p.y, -1.0, 0.0))
  }

  /**
   * The ray is a direction: row-major entries 3, 7, 11 and 15 of the inverse
   * view matrix, the translation column under that indexing, cannot change it.
   */
  lemma CastRayIgnoresViewColumn3(posX: real, posY: real, s: Scene, otherView: Mat4)
    requires s.viewportWidth != 0 && s.viewportHeight != 0
    requires AgreeOffColumn3(s.inverseView, otherView)
    ensures CastRay(posX, posY, s) == CastRay(posX, posY, s.(inverseView := otherView))
  {
    var p := Unproject(posX, posY, s);
    DirectionIgnoresColumn3(s.inverseView, otherView, Vec4(p.x, p.y, -1.0, 0.0));
  }

  /**
   * The z and w the inverse projection produces are overwritten, so only its
   * first two rows matter to the ray.
   */
  lemma CastRayReadsProjectionRows01(posX: real, posY: real, s: Scene, otherProjection: Mat4)
    requires s.viewportWidth != 0 && s.viewportHeight != 0
    requires AgreeOnRows01(s.inverseProjection, otherProjection)
    ensures CastRay(posX, posY, s) == CastRay(posX, posY, s.(inverseProjection := otherProjection))
  {
    var a := s.inverseProjection;
    var b := otherProjection;
    assert a[0] == b[0] && a[1] == b[1] && a[2] == b[2] && a[3] == b[3];
    assert a[4] == b[4] && a[5] == b[5] && a[6] == b[6] && a[7] == b[7];
  }

  // ---------------------------------------------------------------------------
  // minRoot and intersectionPoint

  /**
   * A root of `a t^2 + b t + c` when `sq` squares to the discriminant and
   * `2 a t` is `-b` plus or minus `sq`.
   */
  lemma QuadraticRoot(a: real, b: real, c: real, sq: real, t: real)
    requires a != 0.0
    requires sq * sq == b * b - 4.0 * a * c
    requires 2.0 * a * t == -b + sq || 2.0 * a * t == -b - sq
    ensures a * t * t + b * t + c == 0.0
  {
    var u := 2.0 * a * t + b;
    assert u * u == sq * sq;
    var value := a * t * t + b * t + c;
    assert 4.0 * a * value == u * u - (b * b - 4.0 * a * c);
    assert (4.0 * a) * value == 0.0;
  }

  /** Every root of `a t^2 + b t + c` is `(-b + u) / 2a` for `u` a square root of the discriminant. */
  lemma RootHasDiscriminantRoot(a: real, b: real, c: real, t: real)
    requires a != 0.0
    requires a * t * t + b * t + c == 0.0
    ensures (2.0 * a * t + b) * (2.0 * a * t + b) == b * b - 4.0 * a * c
  {
    var u := 2.0 * a * t + b;
    assert u * u == 4.0 * a * (a * t * t + b * t + c) + b * b - 4.0 * a * c;
  }

  /** Two numbers with the same square are equal or opposite. */
  lemma SameSquare(u: real, v: real)
    requires u * u == v * v
    ensures u == v || u == -v
  {
    assert (u - v) * (u + v) == 0.0;
  }

  /**
   * `minRoot`: the smaller solution of `a t^2 + b t + c = 0`. The source gets
   * NaN from the square root of a negative discriminant, and from `0 / 0`
   * when `a` is 0 (then the discriminant is `b^2` and one numerator is 0);
   * both are `None` here.
   */
  function MinRoot(a: real, b: real, c: real, m: MathLib): (t: Option<real>)
    ensures t.None? <==> b * b - 4.0 * a * c < 0.0 || a == 0.0
  {
    var disc := b * b - 4.0 * a * c;
    if disc < 0.0 || a == 0.0 then
      None
    else
      var sq := m.sqrt(disc);
      var root1 := (-b + sq) / (2.0 * a);
      var root2 := (-b - sq) / (2.0 * a);
      Some(Min(root1, root2))
  }

  /** The root `MinRoot` returns solves the quadratic. */
  lemma {:induction false} MinRootSolves(a: real, b: real, c: real, m: MathLib)
    requires Sound(m)
    requires MinRoot(a, b, c, m).Some?
    ensures var t := MinRoot(a, b, c, m).value; a * t * t + b * t + c == 0.0
  {
    var sq := m.sqrt(b * b - 4.0 * a * c);
    var root1 := (-b + sq) / (2.0 * a);
    var root2 := (-b - sq) / (2.0 * a);
    assert 2.0 * a * root1 == -b + sq && 2.0 * a * root2 == -b - sq;
    QuadraticRoot(a, b, c, sq, Min(root1, root2));
  }

  /** The root `MinRoot` returns is no larger than any root of the quadratic. */
  lemma {:induction false} MinRootIsSmallest(a: real, b: real, c: real, m: MathLib, s: real)
    requires Sound(m)
    requires a != 0.0 && a * s * s + b * s + c == 0.0
    ensures MinRoot(a, b, c, m).Some? && MinRoot(a, b, c, m).value <= s
  {
    var disc := b * b - 4.0 * a * c;
    RootHasDiscriminantRoot(a, b, c, s);
    var u := 2.0 * a * s + b;
    assert u * u >= 0.0;
    assert disc >= 0.0;
    var sq := m.sqrt(disc);
    SameSquare(u, sq);
    var root1 := (-b + sq) / (2.0 * a);
    var root2 := (-b - sq) / (2.0 * a);
    assert 2.0 * a * s == -b + u;
    if u == sq {
      assert s == root1;
    } else {
      assert s == root2;
    }
  }

  function SquaredLength(v: Vec3): real
  {
    v.x * v.x + v.y * v.y + v.z * v.z
  }

  /** The point at parameter `t` on the ray from `ORIGIN` along `d`, as a point (w = 1). */
  function RayAt(d: Vec4, t: real): Vec4
  {
    Vec4(ORIGIN.x + d.x * t, ORIGIN.y + d.y * t, ORIGIN.z + d.z * t, 1.0)
  }

  /** The coefficients `intersectionPoint` hands to `minRoot`. */
  function QuadA(d: Vec4): real
  {
    d.x * d.x + d.y * d.y + d.z * d.z
  }

  function QuadB(d: Vec4): real
  {
    ORIGIN.x * d.x * 2.0 + ORIGIN.y * d.y * 2.0 + ORIGIN.z * d.z * 2.0
  }

  function QuadC(radius: real): real
  {
    ORIGIN.x * ORIGIN.x + ORIGIN.y * ORIGIN.y + ORIGIN.z * ORIGIN.z - radius * radius
  }

  /** The squared distance of `RayAt(d, t)` from the centre, minus `radius^2`, is the quadratic. */
  lemma RayAtQuadratic(d: Vec4, t: real, radius: real)
    ensures var p := RayAt(d, t);
      SquaredLength(Vec3(p.x, p.y, p.z)) - radius * radius
        == QuadA(d) * t * t + QuadB(d) * t + QuadC(radius)
  {
    var z := 5.0 + d.z * t;
    assert z * z == 25.0 + 10.0 * d.z * t + d.z * d.z * t * t;
  }

  /**
   * `intersectionPoint`: the nearer point where the ray from `(0, 0, 5)`
   * along `d` meets the sphere of `radius` about the origin, or `None` for a
   * miss (a negative discriminant, or no direction at all).
   */
  function IntersectionPoint(d: Vec4, radius: real, m: MathLib): (p: Option<Vec4>)
    ensures p.None? <==>
      QuadB(d) * QuadB(d) - 4.0 * QuadA(d) * QuadC(radius) < 0.0 || QuadA(d) == 0.0
    ensures p.Some? ==> p.value.w == 1.0 && exists t :: p.value == RayAt(d, t)
  {
    var a := QuadA(d);
    var b := QuadB(d);
    var c := QuadC(radius);
    match MinRoot(a, b, c, m)
    case None => None
    case Some(t) => Some(RayAt(d, t))
  }

  /** A reported intersection lies on the sphere. */
  lemma {:induction false} IntersectionOnSphere(d: Vec4, radius: real, m: MathLib)
    requires Sound(m)
    requires IntersectionPoint(d, radius, m).Some?
    ensures var p := IntersectionPoint(d, radius, m).value;
      SquaredLength(Vec3(p.x, p.y, p.z)) == radius * radius
  {
    MinRootSolves(QuadA(d), QuadB(d), QuadC(radius), m);
    RayAtQuadratic(d, MinRoot(QuadA(d), QuadB(d), QuadC(radius), m).value, radius);
  }

  /**
   * For a ray with a direction, any point of the ray on the sphere makes
   * `IntersectionPoint` report a hit, at a parameter no larger: the nearest
   * intersection is the one found.
   */
  lemma {:induction false} IntersectionFindsNearest(d: Vec4, radius: real, m: MathLib, s: real)
    requires Sound(m)
    requires QuadA(d) > 0.0
    requires var q := RayAt(d, s); SquaredLength(Vec3(q.x, q.y, q.z)) == radius * radius
    ensures IntersectionPoint(d, radius, m).Some?
    ensures MinRoot(QuadA(d), QuadB(d), QuadC(radius), m).value <= s
  {
    RayAtQuadratic(d, s, radius);
    MinRootIsSmallest(QuadA(d), QuadB(d), QuadC(radius), m, s);
  }

  // ---------------------------------------------------------------------------
  // rotatePoint and getPolar

  /** The row-major rotation about the x axis by the angle whose cosine and sine are `c` and `s`. */
  function RotationX(c: real, s: real): (r: Mat4)
    ensures IsAffine(r)
    ensures c == 1.0 && s == 0.0 ==> r == IDENTITY
  {
    [1.0, 0.0, 0.0, 0.0,
     0.0, c, -s, 0.0,
     0.0, s, c, 0.0,
     0.0, 0.0, 0.0, 1.0]
  }

  /**
   * `rotatePoint`: turn the point about the x axis by `yAngle` radians; the
   * `xAngle` argument is not used. It keeps x, w and the distance from the
   * x axis.
   */
  function RotatePoint(p: Vec4, xAngle: real, yAngle: real, m: MathLib): (r: Vec4)
    ensures r.x == p.x && r.w == p.w
    ensures r.y == m.cos(yAngle) * p.y - m.sin(yAngle) * p.z
    ensures r.z == m.sin(yAngle) * p.y + m.cos(yAngle) * p.z
  {
    MulMatVec(RotationX(m.cos(yAngle), m.sin(yAngle)), p)
  }

  /** The rotation keeps the distance from the x axis, hence from the centre. */
  lemma {:induction false} RotationKeepsRadius(p: Vec4, xAngle: real, yAngle: real, m: MathLib)
    requires Sound(m)
    ensures var r := RotatePoint(p, xAngle, yAngle, m);
      r.y * r.y + r.z * r.z == p.y * p.y + p.z * p.z
  {
    var c := m.cos(yAngle);
    var s := m.sin(yAngle);
    var r := RotatePoint(p, xAngle, yAngle, m);
    assert s * s + c * c == 1.0;
    assert r.y * r.y + r.z * r.z == (s * s + c * c) * (p.y * p.y + p.z * p.z);
  }

  /** A quotient whose square is at most 1 lies in [-1, 1]. */
  lemma UnitQuotient(x: real, h: real)
    requires h > 0.0 && x * x <= h * h
    ensures -1.0 <= x / h <= 1.0
  {
    var u := x / h;
    assert u * h == x;
    assert Abs(x) * Abs(x) == x * x;
    SquareLe(Abs(x), h);
    ScaleLe(u, 1.0, h);
    ScaleLe(-1.0, u, h);
  }

  /** The distance from the y axis, `Math.sqrt(x*x + z*z)`. */
  function Hypot(x: real, z: real, m: MathLib): real
  {
    m.sqrt(x * x + z * z)
  }

  /**
   * `getPolar`: longitude `asin(x / h)` with `h` the distance from the y axis,
   * latitude `asin(y / radius)`. Longitude is undefined exactly on the y axis.
   */
  function GetPolar(x: real, y: real, z: real, m: MathLib): (polar: Polar)
    ensures polar.lon.None? <==> Hypot(x, z, m) == 0.0
    ensures polar.lat == m.asin(y / RADIUS)
  {
    var h := Hypot(x, z, m);
    var lon := if h == 0.0 then None else Some(m.asin(x / h));
    var lat := m.asin(y / RADIUS);
    Polar(lon, lat)
  }

  /**
   * Longitude is undefined exactly on the y axis and otherwise within
   * [-pi/2, pi/2]; latitude is within [-pi/2, pi/2] for a point no further
   * from the equator plane than the radius.
   */
  lemma {:induction false} PolarRanges(x: real, y: real, z: real, m: MathLib)
    requires Sound(m)
    ensures GetPolar(x, y, z, m).lon.None? <==> x * x + z * z == 0.0
    ensures GetPolar(x, y, z, m).lon.Some? ==> -PI / 2.0 <= GetPolar(x, y, z, m).lon.value <= PI / 2.0
    ensures -RADIUS <= y <= RADIUS ==> -PI / 2.0 <= GetPolar(x, y, z, m).lat <= PI / 2.0
  {
    var h := Hypot(x, z, m);
    assert x * x >= 0.0 && z * z >= 0.0;
    assert h * h == x * x + z * z && h >= 0.0;
    if h != 0.0 {
      assert x * x <= h * h;
      UnitQuotient(x, h);
      assert GetPolar(x, y, z, m).lon.value == m.asin(x / h);
    }
  }

  // ---------------------------------------------------------------------------
  // Post-processing in the ACTION_UP branch

  /**
   * `(lon + 2 pi) % (2 pi)` with Java's remainder: a longitude of at least
   * -2 pi lands in [0, 2 pi), and the result always differs from the input by
   * whole turns.
   */
  function WrapLongitude(lon: real): (r: real)
    ensures -2.0 * PI < r < 2.0 * PI
    ensures lon >= -2.0 * PI ==> 0.0 <= r < 2.0 * PI
    ensures IsMultiple(lon - r, 2.0 * PI)
  {
    var r := JavaRem(lon + PI * 2.0, PI * 2.0);
    OneLess(lon + PI * 2.0 - r, PI * 2.0);
    r
  }

  /** `Math.min(PI / 2, Math.max(-PI / 2, lat))`. */
  function ClampLatitude(lat: real): (r: real)
    ensures -PI / 2.0 <= r <= PI / 2.0
    ensures -PI / 2.0 <= lat <= PI / 2.0 ==> r == lat
  {
    Min(PI / 2.0, Max(-PI / 2.0, lat))
  }

  /** A marker is only drawn strictly inside this band, which stays further from the high pole. */
  predicate InMarkerBand(lat: real)
  {
    -PI / 2.0 + LOW_POLE_MARGIN < lat < PI / 2.0 - HIGH_POLE_MARGIN
  }

  /**
   * The overlay pixel of a longitude and latitude: the longitude's fraction
   * of a full turn across the width, the latitude's fraction of a half turn
   * measured from -pi/2 down the height.
   */
  function MapPixel(lon: real, lat: real): (p: MapPoint)
    ensures p.x * (PI * 2.0) == lon * MAP_WIDTH
    ensures p.y * PI == (lat + PI / 2.0) * MAP_HEIGHT
  {
    var fx := lon / (PI * 2.0);
    var fy := (lat + PI / 2.0) / PI;
    assert fx * (PI * 2.0) == lon;
    assert fy * PI == lat + PI / 2.0;
    MapPoint(fx * MAP_WIDTH, fy * MAP_HEIGHT)
  }

  /** A wrapped longitude and a latitude inside the band give a pixel on the overlay. */
  lemma {:induction false} MapPixelOnOverlay(lon: real, lat: real)
    ensures 0.0 <= lon < 2.0 * PI ==> 0.0 <= MapPixel(lon, lat).x < MAP_WIDTH
    ensures InMarkerBand(lat) ==> 0.0 < MapPixel(lon, lat).y < MAP_HEIGHT
  {
    var fx := lon / (PI * 2.0);
    var fy := (lat + PI / 2.0) / PI;
    assert fx * (PI * 2.0) == lon;
    assert fy * PI == lat + PI / 2.0;
    ScaleLt(fx, 1.0, PI * 2.0);
    ScaleLe(0.0, fx, PI * 2.0);
    ScaleLt(fy, 1.0, PI);
    ScaleLt(0.0, fy, PI);
  }

  // ---------------------------------------------------------------------------
  // showCoordinates

  /** `Math.round(v * 100) / 100`: the nearest whole number of hundredths. */
  function Hundredths(v: real): (r: real)
    ensures IsHundredth(r)
    ensures v * 100.0 - 0.5 < r * 100.0 <= v * 100.0 + 0.5
    ensures Abs(r - v) <= 0.005
    ensures r < 0.0 ==> v < 0.0
  {
    var k := Round(v * 100.0);
    assert (k as real / 100.0 * 100.0).Floor == k;
    k as real / 100.0
  }

  /** A value between two whole numbers of hundredths rounds to hundredths between them. */
  lemma {:induction false} HundredthsWithin(v: real, bound: int)
    requires -bound as real <= v * 100.0 <= bound as real
    ensures -bound as real <= Hundredths(v) * 100.0 <= bound as real
  {
    var k := Round(v * 100.0);
    assert Hundredths(v) * 100.0 == k as real;
    assert k < bound + 1 && k > -bound - 1;
  }

  /** The value shown: the magnitude, negated for the hemisphere letter that marks a negative value. */
  function Signed(magnitude: real, negative: bool): real
  {
    if negative then -magnitude else magnitude
  }

  /** Degrees east of the -pi meridian shift, as `showCoordinates` computes them. */
  function LongitudeDegrees(lon: real): real
  {
    (lon - PI) / PI * 180.0
  }

  function LatitudeDegrees(lat: real): real
  {
    lat / (PI / 2.0) * 90.0
  }

  /**
   * `showCoordinates`: both angles in degrees, rounded to hundredths and
   * shown unsigned with a hemisphere letter. A negative longitude is "W",
   * otherwise "E"; a negative latitude is "N", otherwise "S". A NaN longitude
   * rounds to 0 and reads "0.0 E".
   */
  function ShowCoordinates(lon: Option<real>, lat: real): (t: Text)
    ensures t.Coordinates?
    ensures t.longitude >= 0.0 && IsHundredth(t.longitude)
    ensures t.latitude >= 0.0 && IsHundredth(t.latitude)
    ensures t.lonHemisphere == 'W' || t.lonHemisphere == 'E'
    ensures t.latHemisphere == 'N' || t.latHemisphere == 'S'
    ensures t.lonHemisphere == 'W' ==> t.longitude > 0.0
    ensures t.latHemisphere == 'N' ==> t.latitude > 0.0
    ensures lon.None? ==> t.longitude == 0.0 && t.lonHemisphere == 'E'
    ensures lon.Some? ==> Signed(t.longitude, t.lonHemisphere == 'W') == Hundredths(LongitudeDegrees(lon.value))
    ensures Signed(t.latitude, t.latHemisphere == 'N') == Hundredths(LatitudeDegrees(lat))
    ensures lon.Some? ==>
      Abs(Signed(t.longitude, t.lonHemisphere == 'W') - LongitudeDegrees(lon.value)) <= 0.005
    ensures Abs(Signed(t.latitude, t.latHemisphere == 'N') - LatitudeDegrees(lat)) <= 0.005
  {
    var longitude := if lon.Some? then Hundredths(LongitudeDegrees(lon.value)) else 0.0;
    var latitude := Hundredths(LatitudeDegrees(lat));
    var lonHemisphere := if longitude < 0.0 then 'W' else 'E';
    var latHemisphere := if latitude < 0.0 then 'N' else 'S';
    assert IsHundredth(-longitude) by {
      if longitude < 0.0 {
        assert (longitude * 100.0).Floor as real == longitude * 100.0;
        assert -longitude * 100.0 == -(longitude * 100.0);
        assert (-longitude * 100.0).Floor == -((longitude * 100.0).Floor);
      }
    }
    assert IsHundredth(-latitude) by {
      if latitude < 0.0 {
        assert (latitude * 100.0).Floor as real == latitude * 100.0;
        assert -latitude * 100.0 == -(latitude * 100.0);
        assert (-latitude * 100.0).Floor == -((latitude * 100.0).Floor);
      }
    }
    Coordinates(Abs(longitude), lonHemisphere, Abs(latitude), latHemisphere)
  }

  /**
   * For a wrapped longitude and a clamped latitude the text never shows more
   * than 180 degrees of longitude or 90 of latitude.
   */
  lemma {:induction false} DisplayedRanges(lon: Option<real>, lat: real)
    requires lon.Some? ==> 0.0 <= lon.value < 2.0 * PI
    requires -PI / 2.0 <= lat <= PI / 2.0
    ensures ShowCoordinates(lon, lat).longitude <= 180.0
    ensures ShowCoordinates(lon, lat).latitude <= 90.0
  {
    if lon.Some? {
      var f := (lon.value - PI) / PI;
      assert f * PI == lon.value - PI;
      ScaleLe(-1.0, f, PI);
      ScaleLt(f, 1.0, PI);
      HundredthsWithin(LongitudeDegrees(lon.value), 18000);
    }
    var g := lat / (PI / 2.0);
    assert g * (PI / 2.0) == lat;
    ScaleLe(-1.0, g, PI / 2.0);
    ScaleLe(g, 1.0, PI / 2.0);
    HundredthsWithin(LatitudeDegrees(lat), 9000);
  }

  // ---------------------------------------------------------------------------
  // The whole pick

  /** Where the tap's ray first meets the globe, if it does. */
  function Hit(touchX: real, touchY: real, s: Scene, m: MathLib): Option<Vec4>
    requires s.viewportWidth != 0 && s.viewportHeight != 0
  {
    IntersectionPoint(CastRay(touchX, touchY, s), RADIUS, m)
  }

  /** The hit turned by the globe's pitch, `-yAngle` degrees about the x axis. */
  function Rotated(p: Vec4, s: Scene, m: MathLib): Vec4
  {
    RotatePoint(p, Radians(s.xAngle - 90.0), Radians(-s.yAngle), m)
  }

  /**
   * The `ACTION_UP` pick: cast the ray from the stored touch position and
   * intersect it with the globe. A miss clears the text and draws nothing.
   * A hit is rotated by the pitch, converted to polar coordinates, shifted by
   * the yaw less 90 degrees, wrapped and clamped; a marker is drawn when the
   * latitude is inside the pole band and the coordinates are shown.
   */
  function Pick(touchX: real, touchY: real, s: Scene, m: MathLib): (r: PickResult)
    requires s.viewportWidth != 0 && s.viewportHeight != 0
    ensures r.text.Cleared? <==> Hit(touchX, touchY, s, m).None?
    ensures r.text.Cleared? ==> r.marker.None?
  {
    match Hit(touchX, touchY, s, m)
    case None => PickResult(None, Cleared)
    case Some(p) => Locate(Rotated(p, s, m), s, m)
  }

  /**
   * What a hit becomes once turned by the pitch: its polar coordinates, the
   * longitude shifted by the yaw less 90 degrees and wrapped, the latitude
   * clamped, a marker inside the pole band, and the coordinate text.
   */
  function Locate(q: Vec4, s: Scene, m: MathLib): (r: PickResult)
    ensures r.text.Coordinates?
    ensures r.marker.Some? ==> InMarkerBand(ClampLatitude(GetPolar(q.x, q.y, q.z, m).lat))
  {
    var angleXrad := Radians(s.xAngle - 90.0);
    var polar := GetPolar(q.x, q.y, q.z, m);
    var lon := if polar.lon.Some? then Some(WrapLongitude(polar.lon.value + angleXrad)) else None;
    var lat := ClampLatitude(polar.lat);
    var marker := if lon.Some? && InMarkerBand(lat) then Some(MapPixel(lon.value, lat)) else None;
    PickResult(marker, ShowCoordinates(lon, lat))
  }

  /** A point on the globe, turned by the pitch, is still on the globe, so its height is at most the radius. */
  lemma {:induction false} RotatedPointOnGlobe(p: Vec4, s: Scene, m: MathLib)
    requires Sound(m)
    requires SquaredLength(Vec3(p.x, p.y, p.z)) == RADIUS * RADIUS
    ensures var q := Rotated(p, s, m);
      SquaredLength(Vec3(q.x, q.y, q.z)) == RADIUS * RADIUS && -RADIUS <= q.y <= RADIUS
  {
    RotationKeepsRadius(p, Radians(s.xAngle - 90.0), Radians(-s.yAngle), m);
    var q := Rotated(p, s, m);
    assert q.x * q.x + q.y * q.y + q.z * q.z == RADIUS * RADIUS;
    assert q.x * q.x >= 0.0 && q.z * q.z >= 0.0;
    assert Abs(q.y) * Abs(q.y) == q.y * q.y;
    SquareLe(Abs(q.y), RADIUS);
  }

  /** A hit, turned by the pitch, is still on the globe. */
  lemma {:induction false} RotatedHitOnGlobe(touchX: real, touchY: real, s: Scene, m: MathLib)
    requires Sound(m)
    requires s.viewportWidth != 0 && s.viewportHeight != 0
    requires Hit(touchX, touchY, s, m).Some?
    ensures var q := Rotated(Hit(touchX, touchY, s, m).value, s, m);
      SquaredLength(Vec3(q.x, q.y, q.z)) == RADIUS * RADIUS && -RADIUS <= q.y <= RADIUS
  {
    var d := CastRay(touchX, touchY, s);
    IntersectionOnSphere(d, RADIUS, m);
    RotatedPointOnGlobe(IntersectionPoint(d, RADIUS, m).value, s, m);
  }

  /** On a hit the latitude `getPolar` returns is already in [-pi/2, pi/2]: the clamp never acts. */
  lemma {:induction false} LatitudeNeverClamped(touchX: real, touchY: real, s: Scene, m: MathLib)
    requires Sound(m)
    requires s.viewportWidth != 0 && s.viewportHeight != 0
    requires Hit(touchX, touchY, s, m).Some?
    ensures var q := Rotated(Hit(touchX, touchY, s, m).value, s, m);
      ClampLatitude(GetPolar(q.x, q.y, q.z, m).lat) == GetPolar(q.x, q.y, q.z, m).lat
  {
    RotatedHitOnGlobe(touchX, touchY, s, m);
    var q := Rotated(Hit(touchX, touchY, s, m).value, s, m);
    PolarRanges(q.x, q.y, q.z, m);
  }

  /**
   * Where the longitude is undefined the hit is at a pole, outside the
   * marker band; so on a hit the marker is drawn exactly when the latitude
   * is inside the band.
   */
  lemma {:induction false} MarkerIffBand(touchX: real, touchY: real, s: Scene, m: MathLib)
    requires Sound(m)
    requires s.viewportWidth != 0 && s.viewportHeight != 0
    requires Hit(touchX, touchY, s, m).Some?
    ensures var q := Rotated(Hit(touchX, touchY, s, m).value, s, m);
      Pick(touchX, touchY, s, m).marker.Some? <==> InMarkerBand(GetPolar(q.x, q.y, q.z, m).lat)
  {
    RotatedHitOnGlobe(touchX, touchY, s, m);
    var q := Rotated(Hit(touchX, touchY, s, m).value, s, m);
    UndefinedLongitudeAtPole(q, m);
  }

  /** On the globe, the longitude is undefined only at a pole, whose latitude is outside the marker band. */
  lemma {:induction false} UndefinedLongitudeAtPole(q: Vec4, m: MathLib)
    requires Sound(m)
    requires SquaredLength(Vec3(q.x, q.y, q.z)) == RADIUS * RADIUS
    ensures GetPolar(q.x, q.y, q.z, m).lon.None? ==> !InMarkerBand(GetPolar(q.x, q.y, q.z, m).lat)
  {
    var polar := GetPolar(q.x, q.y, q.z, m);
    PolarRanges(q.x, q.y, q.z, m);
    if polar.lon.None? {
      assert q.y * q.y == RADIUS * RADIUS;
      SameSquare(q.y, RADIUS);
      assert polar.lat == PI / 2.0 || polar.lat == -PI / 2.0;
    }
  }

  /**
   * With the yaw in [0, 360) a marker always lands on the overlay, and the
   * text stays within 180 degrees of longitude and 90 of latitude.
   */
  lemma {:induction false} PickLandsOnMap(touchX: real, touchY: real, s: Scene, m: MathLib)
    requires Sound(m)
    requires s.viewportWidth != 0 && s.viewportHeight != 0
    requires 0.0 <= s.xAngle < 360.0
    ensures var r := Pick(touchX, touchY, s, m);
      r.marker.Some? ==> 0.0 <= r.marker.value.x < MAP_WIDTH && 0.0 < r.marker.value.y < MAP_HEIGHT
    ensures var r := Pick(touchX, touchY, s, m);
      r.text.Coordinates? ==> r.text.longitude <= 180.0 && r.text.latitude <= 90.0
  {
    match Hit(touchX, touchY, s, m)
    case None =>
    case Some(p) =>
      RotatedHitOnGlobe(touchX, touchY, s, m);
      LocateLandsOnMap(Rotated(p, s, m), s, m);
  }

  /** `PickLandsOnMap` for one point of the globe's height range. */
  lemma {:induction false} LocateLandsOnMap(q: Vec4, s: Scene, m: MathLib)
    requires Sound(m)
    requires 0.0 <= s.xAngle < 360.0
    requires -RADIUS <= q.y <= RADIUS
    ensures var r := Locate(q, s, m);
      r.marker.Some? ==> 0.0 <= r.marker.value.x < MAP_WIDTH && 0.0 < r.marker.value.y < MAP_HEIGHT
    ensures var r := Locate(q, s, m);
      r.text.longitude <= 180.0 && r.text.latitude <= 90.0
  {
    var angleXrad := Radians(s.xAngle - 90.0);
    var polar := GetPolar(q.x, q.y, q.z, m);
    PolarRanges(q.x, q.y, q.z, m);
    var lon := if polar.lon.Some? then Some(WrapLongitude(polar.lon.value + angleXrad)) else None;
    var lat := ClampLatitude(polar.lat);
    if polar.lon.Some? {
      assert angleXrad * 180.0 == (s.xAngle - 90.0) * PI;
      ScaleLe(-PI / 2.0, angleXrad, 180.0);
      assert polar.lon.value + angleXrad >= -2.0 * PI;
      MapPixelOnOverlay(lon.value, lat);
    }
    DisplayedRanges(lon, lat);
  }
}
