/** `getTemplatePosition`: the target point of particle `index` out of
    `total` for each template. `Math.sin`, `Math.cos`, `Math.acos` and
    `Math.PI` come in as a `Trig` record, and the `Math.random()` draws a
    particle consumes come in as a `Draws` record, so the branch and index
    structure is exact and the transcendental parts are parameters. */
module Geometry {
  import opened Wrappers
  import opened Numbers
  import opened Templates

  datatype Vec3 = Vec3(x: real, y: real, z: real)

  datatype Trig = Trig(pi: real, sin: real -> real, cos: real -> real, acos: real -> real)

  /** sin^2 + cos^2 = 1, the one trigonometric law the shape lemmas need. */
  ghost predicate Pythagorean(tr: Trig) {
    forall a :: tr.sin(a) * tr.sin(a) + tr.cos(a) * tr.cos(a) == 1.0
  }

  ghost predicate SinBounded(tr: Trig) {
    forall a :: -1.0 <= tr.sin(a) <= 1.0
  }

  ghost predicate CosBounded(tr: Trig) {
    forall a :: -1.0 <= tr.cos(a) <= 1.0
  }

  /** The `Math.random()` values drawn while building one particle: up to two
      inside the geometry (saturn ring radius; fireworks y and z jitter;
      galaxy y jitter), then three for the initial velocity. */
  datatype Draws = Draws(shape1: real, shape2: real, vx: real, vy: real, vz: real)

  /** Every draw lies in [0, 1), as `Math.random()` promises. */
  predicate UnitDraws(d: Draws) {
    0.0 <= d.shape1 < 1.0 && 0.0 <= d.shape2 < 1.0 &&
    0.0 <= d.vx < 1.0 && 0.0 <= d.vy < 1.0 && 0.0 <= d.vz < 1.0
  }

  /** The saturn template splits its indices: the first 30% go on the
      sphere (with their fractional position `u` in that range), the rest
      on the ring (with their fractional position `f` along it). */
  datatype SaturnPart = Sphere(u: real) | Ring(f: real)

  function SaturnSplit(index: nat, total: nat): (p: SaturnPart)
    requires total > 0
    ensures p.Sphere? <==> (index as real) < (total as real) * 0.3
    ensures p.Sphere? ==> 0.0 <= p.u < 1.0 && p.u * ((total as real) * 0.3) == index as real
    ensures p.Ring? ==> p.f * ((total as real) * 0.7) == (index as real) - (total as real) * 0.3
    ensures p.Ring? && index < total ==> 0.0 <= p.f < 1.0
  {
    var n := total as real;
    if (index as real) < n * 0.3 then
      var u := (index as real) / (n * 0.3);
      assert u < 1.0 by { if u >= 1.0 { MulMono(1.0, u, n * 0.3); } }
      Sphere(u)
    else
      var f := ((index as real) - n * 0.3) / (n * 0.7);
      assert index < total ==> f < 1.0 by {
        if index < total && f >= 1.0 { MulMono(1.0, f, n * 0.7); }
      }
      Ring(f)
  }

  /** The fireworks template cuts the indices into five equal runs of
      `total / 5`: `burst` is the run and `frac` the position within it. */
  datatype BurstSlot = BurstSlot(burst: int, frac: real)

  function FireworksSlot(index: nat, total: nat): (s: BurstSlot)
    requires total > 0
    ensures 0.0 <= s.frac < 1.0
    ensures ((s.burst as real) + s.frac) * ((total as real) / 5.0) == index as real
    ensures 0 <= s.burst && (index < total ==> s.burst <= 4)
  {
    var b := (total as real) / 5.0;
    RemOverDivisor(index as real, b);
    BurstBelowFive(index, total);
    BurstSlot(((index as real) / b).Floor, JsRem(index as real, b) / b)
  }

  lemma BurstBelowFive(index: nat, total: nat)
    requires total > 0
    ensures index < total ==> ((index as real) / ((total as real) / 5.0)).Floor <= 4
  {
    var b := (total as real) / 5.0;
    var q := (index as real) / b;
    if index < total && q >= 5.0 {
      assert q * b == index as real;
      assert 5.0 * b == total as real;
      MulMono(5.0, q, b);
    }
  }

  /** `(a % b) / b` is the fractional part of `a / b` for `a >= 0`. */
  lemma RemOverDivisor(a: real, b: real)
    requires a >= 0.0 && b > 0.0
    ensures JsRem(a, b) / b == a / b - (a / b).Floor as real
    ensures (((a / b).Floor as real) + JsRem(a, b) / b) * b == a
  {
    var q := a / b;
    assert q * b == a;
    assert q >= 0.0 by { if q < 0.0 { MulMono(q, 0.0, b); } }
    var fl := q.Floor as real;
    var m := JsRem(a, b);
    assert m == a - fl * b;
    assert m == (q - fl) * b;
    assert m / b == q - fl;
  }

  /** The position of particle `index` of `total` in the named template;
      a name outside the table gives the origin. */
  function TemplatePosition(name: string, index: nat, total: nat, tr: Trig, d: Draws): (p: Vec3)
    requires total > 0
    ensures Lookup(name).None? ==> p == Vec3(0.0, 0.0, 0.0)
    ensures Lookup(name).Some? ==> p == ShapePosition(Lookup(name).value, index, total, tr, d)
  {
    match Lookup(name)
    case None => Vec3(0.0, 0.0, 0.0)
    case Some(t) => ShapePosition(t, index, total, tr, d)
  }

  /** The per-template branches of the generator. `s` is the index as a
      fraction of the total and `t = 2 pi s` the curve parameter. */
  function ShapePosition(t: TemplateName, index: nat, total: nat, tr: Trig, d: Draws): Vec3
    requires total > 0
  {
    var s := (index as real) / (total as real);
    match t
    case Spiral => SpiralPoint(s, tr)
    case Heart => HeartPoint(s, tr)
    case Flower => FlowerPoint(s, tr)
    case Saturn => SaturnPosition(SaturnSplit(index, total), tr, d)
    case Fireworks => FireworksPoint(FireworksSlot(index, total), tr, d)
    case Galaxy => GalaxyPoint(s, tr, d)
  }

  /** Looking a template up by its own key runs that template's branch. */
  lemma TemplatePositionByKey(t: TemplateName, index: nat, total: nat, tr: Trig, d: Draws)
    requires total > 0
    ensures TemplatePosition(Key(t), index, total, tr, d) == ShapePosition(t, index, total, tr, d)
  {
    KeysDistinct(t, t);
  }

  const Radius: real := 15.0

  /** `x * Math.PI * 2`: the fraction `x` of a full turn, in radians. */
  function Turn(x: real, tr: Trig): real {
    x * tr.pi * 2.0
  }

  /** Expanding helix: angle 5t, radius 15 s, z rising from -10. */
  function SpiralPoint(s: real, tr: Trig): Vec3 {
    var t := Turn(s, tr);
    Vec3(tr.cos(t * 5.0) * Radius * s, tr.sin(t * 5.0) * Radius * s, s * 20.0 - 10.0)
  }

  /** The classic parametric heart at parameter 2t, scaled by 0.8, with z = 5 sin 3t. */
  function HeartPoint(s: real, tr: Trig): Vec3 {
    var t := Turn(s, tr);
    var h := t * 2.0;
    var sh := tr.sin(h);
    Vec3(16.0 * (sh * sh * sh) * 0.8,
         (13.0 * tr.cos(h) - 5.0 * tr.cos(2.0 * h) - 2.0 * tr.cos(3.0 * h) - tr.cos(4.0 * h)) * 0.8,
         tr.sin(t * 3.0) * 5.0)
  }

  /** Eight-petal rose: radius 15 (1 + 0.5 sin 8t), z = 3 cos 8t. */
  function FlowerPoint(s: real, tr: Trig): Vec3 {
    var t := Turn(s, tr);
    var r := FlowerRadius(s, tr);
    Vec3(r * tr.cos(t), r * tr.sin(t), tr.cos(t * 8.0) * 3.0)
  }

  function FlowerRadius(s: real, tr: Trig): real {
    Radius * (1.0 + 0.5 * tr.sin(Turn(s, tr) * 8.0))
  }

  /** The two saturn branches. */
  function SaturnPosition(part: SaturnPart, tr: Trig, d: Draws): Vec3 {
    match part
    case Sphere(u) => SpherePoint(u, tr)
    case Ring(f) => RingPoint(f, tr, d)
  }

  /** A point on the radius-8 sphere at `theta = 2 pi u`, `phi = acos(2u - 1)`. */
  function SpherePoint(u: real, tr: Trig): Vec3 {
    var sphereT := Turn(u, tr);
    var phi := tr.acos(2.0 * u - 1.0);
    Vec3(8.0 * tr.sin(phi) * tr.cos(sphereT), 8.0 * tr.sin(phi) * tr.sin(sphereT), 8.0 * tr.cos(phi))
  }

  /** A point on the ring at angle `2 pi f`, radius `12 + 6 r` for the draw
      `r`, rippled in y by `0.5 sin(10 ringT)`. */
  function RingPoint(f: real, tr: Trig, d: Draws): Vec3 {
    var ringT := Turn(f, tr);
    var ringRadius := 12.0 + d.shape1 * 6.0;
    Vec3(ringRadius * tr.cos(ringT), tr.sin(ringT * 10.0) * 0.5, ringRadius * tr.sin(ringT))
  }

  /** A fireworks point: a circle sweep within the burst, centred at
      x = 15 burst - 30, with y and z jittered by draws. */
  function FireworksPoint(slot: BurstSlot, tr: Trig, d: Draws): Vec3 {
    var burstT := Turn(slot.frac, tr);
    var burstR := slot.frac * 20.0;
    var offset := BurstCentre(slot);
    Vec3(burstR * tr.cos(burstT) + offset,
         burstR * tr.sin(burstT) + (d.shape1 - 0.5) * 10.0,
         (d.shape2 - 0.5) * 10.0)
  }

  function BurstCentre(slot: BurstSlot): real {
    (slot.burst as real) * 15.0 - 30.0
  }

  /** A galaxy point: arm angle 3t + 0.2 armR, arm radius 25 s, y jittered. */
  function GalaxyPoint(s: real, tr: Trig, d: Draws): Vec3 {
    var t := Turn(s, tr);
    var armT := t * 3.0;
    var armR := s * 25.0;
    Vec3(armR * tr.cos(armT + armR * 0.2), (d.shape1 - 0.5) * 5.0, armR * tr.sin(armT + armR * 0.2))
  }

  // One-step unfoldings of the generators, stated apart from the shape
  // lemmas so that the nonlinear arithmetic there sees only named
  // trigonometric values.

  lemma SpherePointUnfold(u: real, tr: Trig)
    ensures var th := Turn(u, tr); var phi := tr.acos(2.0 * u - 1.0);
      SpherePoint(u, tr) == Vec3(8.0 * tr.sin(phi) * tr.cos(th), 8.0 * tr.sin(phi) * tr.sin(th), 8.0 * tr.cos(phi))
  {
  }

  lemma RingPointUnfold(f: real, tr: Trig, d: Draws)
    ensures var ringT := Turn(f, tr); var rr := 12.0 + d.shape1 * 6.0;
      RingPoint(f, tr, d).x == rr * tr.cos(ringT)
    ensures var ringT := Turn(f, tr); RingPoint(f, tr, d).y == tr.sin(ringT * 10.0) * 0.5
    ensures var ringT := Turn(f, tr); var rr := 12.0 + d.shape1 * 6.0; RingPoint(f, tr, d).z == rr * tr.sin(ringT)
  {
  }

  lemma SpiralPointUnfold(s: real, tr: Trig)
    ensures var t := Turn(s, tr);
      SpiralPoint(s, tr) == Vec3((15.0 * s) * tr.cos(t * 5.0), (15.0 * s) * tr.sin(t * 5.0), s * 20.0 - 10.0)
  {
  }

  lemma FlowerPointUnfold(s: real, tr: Trig)
    ensures var t := Turn(s, tr); var r := FlowerRadius(s, tr);
      FlowerPoint(s, tr) == Vec3(r * tr.cos(t), r * tr.sin(t), tr.cos(t * 8.0) * 3.0)
  {
  }

  lemma FireworksPointUnfold(slot: BurstSlot, tr: Trig, d: Draws)
    ensures var p := FireworksPoint(slot, tr, d);
      p.x - BurstCentre(slot) == (slot.frac * 20.0) * tr.cos(Turn(slot.frac, tr)) &&
      p.z == (d.shape2 - 0.5) * 10.0
  {
  }

  lemma GalaxyPointUnfold(s: real, tr: Trig, d: Draws)
    ensures var armR := s * 25.0; var a := Turn(s, tr) * 3.0 + armR * 0.2;
      GalaxyPoint(s, tr, d) == Vec3(armR * tr.cos(a), (d.shape1 - 0.5) * 5.0, armR * tr.sin(a))
  {
  }

  function SqNorm(p: Vec3): real {
    p.x * p.x + p.y * p.y + p.z * p.z
  }

  /** Saturn's first 30% of indices lie on the sphere of radius 8 about the origin. */
  lemma SaturnSphereRadius(index: nat, total: nat, tr: Trig, d: Draws)
    requires total > 0 && Pythagorean(tr)
    requires (index as real) < (total as real) * 0.3
    ensures SqNorm(TemplatePosition("saturn", index, total, tr, d)) == 64.0
  {
    KeysDistinct(Saturn, Saturn);
    var u := SaturnSplit(index, total).u;
    assert TemplatePosition("saturn", index, total, tr, d) == SpherePoint(u, tr);
    SpherePointRadius(u, tr);
  }

  lemma SpherePointRadius(u: real, tr: Trig)
    requires Pythagorean(tr)
    ensures SqNorm(SpherePoint(u, tr)) == 64.0
  {
    var th := Turn(u, tr);
    var phi := tr.acos(2.0 * u - 1.0);
    var sp, cp, c, s := tr.sin(phi), tr.cos(phi), tr.cos(th), tr.sin(th);
    SpherePointUnfold(u, tr);
    OnSphere(sp, cp, c, s);
  }

  lemma OnSphere(sp: real, cp: real, c: real, s: real)
    requires sp * sp + cp * cp == 1.0 && c * c + s * s == 1.0
    ensures SqNorm(Vec3(8.0 * sp * c, 8.0 * sp * s, 8.0 * cp)) == 64.0
  {
    calc {
      SqNorm(Vec3(8.0 * sp * c, 8.0 * sp * s, 8.0 * cp));
      64.0 * (sp * sp) * (c * c + s * s) + 64.0 * (cp * cp);
      64.0 * (sp * sp + cp * cp);
    }
  }

  /** `(r c)^2 + (r s)^2 = r^2` on the unit circle. */
  lemma OnCircle(r: real, c: real, s: real)
    requires c * c + s * s == 1.0
    ensures (r * c) * (r * c) + (r * s) * (r * s) == r * r
  {
    assert (r * c) * (r * c) + (r * s) * (r * s) == r * r * (c * c + s * s);
  }

  /** Squares are monotone on [lo, hi] for 0 <= lo. */
  lemma SquareBetween(lo: real, r: real, hi: real)
    requires 0.0 <= lo <= r <= hi
    ensures lo * lo <= r * r <= hi * hi
    ensures r < hi ==> r * r < hi * hi
  {
    SquareGap(lo, r);
    SquareGap(r, hi);
  }

  /** The remaining saturn indices lie on a flat ring: horizontal radius in
      [12, 18) and vertical ripple of at most 0.5. */
  lemma SaturnRingShape(index: nat, total: nat, tr: Trig, d: Draws)
    requires total > 0 && Pythagorean(tr) && SinBounded(tr) && UnitDraws(d)
    requires (index as real) >= (total as real) * 0.3
    ensures var p := TemplatePosition("saturn", index, total, tr, d);
      144.0 <= p.x * p.x + p.z * p.z < 324.0 && -0.5 <= p.y <= 0.5
  {
    KeysDistinct(Saturn, Saturn);
    var f := SaturnSplit(index, total).f;
    assert TemplatePosition("saturn", index, total, tr, d) == RingPoint(f, tr, d);
    RingPointShape(f, tr, d);
  }

  lemma RingPointShape(f: real, tr: Trig, d: Draws)
    requires Pythagorean(tr) && SinBounded(tr) && UnitDraws(d)
    ensures var p := RingPoint(f, tr, d);
      144.0 <= p.x * p.x + p.z * p.z < 324.0 && -0.5 <= p.y <= 0.5
  {
    var ringT := Turn(f, tr);
    var rr := 12.0 + d.shape1 * 6.0;
    var c, s, w := tr.cos(ringT), tr.sin(ringT), tr.sin(ringT * 10.0);
    assert c * c + s * s == 1.0;
    assert -1.0 <= w <= 1.0;
    RingPointUnfold(f, tr, d);
    OnCircle(rr, c, s);
    SquareBetween(12.0, rr, 18.0);
  }

  /** The spiral climbs from z = -10 towards z = 10, its radius growing
      linearly with the index up to 15. */
  lemma SpiralShape(index: nat, total: nat, tr: Trig, d: Draws)
    requires total > 0 && index < total && Pythagorean(tr)
    ensures var p := TemplatePosition("spiral", index, total, tr, d);
      var s := (index as real) / (total as real);
      -10.0 <= p.z < 10.0 && 0.0 <= s < 1.0 &&
      p.x * p.x + p.y * p.y == (15.0 * s) * (15.0 * s)
  {
    var s := (index as real) / (total as real);
    assert s < 1.0 by { if s >= 1.0 { MulMono(1.0, s, total as real); } }
    assert TemplatePosition("spiral", index, total, tr, d) == SpiralPoint(s, tr);
    SpiralPointShape(s, tr);
  }

  lemma SpiralPointShape(s: real, tr: Trig)
    requires Pythagorean(tr)
    ensures var p := SpiralPoint(s, tr);
      p.z == s * 20.0 - 10.0 && p.x * p.x + p.y * p.y == (15.0 * s) * (15.0 * s)
  {
    var t := Turn(s, tr);
    var c, sn := tr.cos(t * 5.0), tr.sin(t * 5.0);
    assert c * c + sn * sn == 1.0;
    SpiralPointUnfold(s, tr);
    OnCircle(15.0 * s, c, sn);
  }

  /** The flower is a rose curve: the point's distance from the z axis
      lies in [7.5, 22.5] (its square in [56.25, 506.25]), and |z| <= 3. */
  lemma FlowerShape(index: nat, total: nat, tr: Trig, d: Draws)
    requires total > 0 && Pythagorean(tr) && SinBounded(tr) && CosBounded(tr)
    ensures var p := TemplatePosition("flower", index, total, tr, d);
      56.25 <= p.x * p.x + p.y * p.y <= 506.25 && -3.0 <= p.z <= 3.0
  {
    KeysDistinct(Flower, Flower);
    var s := (index as real) / (total as real);
    assert TemplatePosition("flower", index, total, tr, d) == FlowerPoint(s, tr);
    FlowerPointShape(s, tr);
  }

  lemma FlowerPointShape(s: real, tr: Trig)
    requires Pythagorean(tr) && SinBounded(tr) && CosBounded(tr)
    ensures var p := FlowerPoint(s, tr);
      56.25 <= p.x * p.x + p.y * p.y <= 506.25 && -3.0 <= p.z <= 3.0
  {
    var t := Turn(s, tr);
    var r := FlowerRadius(s, tr);
    assert -1.0 <= tr.sin(t * 8.0) <= 1.0;
    var w := tr.cos(t * 8.0);
    assert -1.0 <= w <= 1.0;
    var c, sn := tr.cos(t), tr.sin(t);
    assert c * c + sn * sn == 1.0;
    FlowerPointUnfold(s, tr);
    OnCircle(r, c, sn);
    SquareBetween(7.5, r, 22.5);
  }

  /** Fireworks: five bursts centred at x = -30, -15, 0, 15, 30; each point
      lies within 20 of its burst centre in x and in the jitter band in z. */
  lemma FireworksShape(index: nat, total: nat, tr: Trig, d: Draws)
    requires total > 0 && index < total && CosBounded(tr) && UnitDraws(d)
    ensures var p := TemplatePosition("fireworks", index, total, tr, d);
      var centre := BurstCentre(FireworksSlot(index, total));
      centre in {-30.0, -15.0, 0.0, 15.0, 30.0} &&
      -20.0 < p.x - centre < 20.0 && -5.0 <= p.z < 5.0
  {
    KeysDistinct(Fireworks, Fireworks);
    var slot := FireworksSlot(index, total);
    assert TemplatePosition("fireworks", index, total, tr, d) == FireworksPoint(slot, tr, d);
    BurstLayout(slot, tr, d);
  }

  lemma BurstLayout(slot: BurstSlot, tr: Trig, d: Draws)
    requires 0 <= slot.burst <= 4 && 0.0 <= slot.frac < 1.0
    requires CosBounded(tr) && UnitDraws(d)
    ensures var p := FireworksPoint(slot, tr, d);
      var centre := BurstCentre(slot);
      centre in {-30.0, -15.0, 0.0, 15.0, 30.0} &&
      -20.0 < p.x - centre < 20.0 && -5.0 <= p.z < 5.0
  {
    var burstT := Turn(slot.frac, tr);
    var c := tr.cos(burstT);
    assert -1.0 <= c <= 1.0;
    var burstR := slot.frac * 20.0;
    FireworksPointUnfold(slot, tr, d);
    ScaledUnit(burstR, 20.0, c);
    assert slot.burst == 0 || slot.burst == 1 || slot.burst == 2 || slot.burst == 3 || slot.burst == 4;
  }

  /** A value in [-1, 1] scaled by `r` in [0, hi) stays strictly inside (-hi, hi). */
  lemma ScaledUnit(r: real, hi: real, c: real)
    requires 0.0 <= r < hi && -1.0 <= c <= 1.0
    ensures -hi < r * c < hi
  {
    if r > 0.0 {
      MulMono(-1.0, c, r);
      MulMono(c, 1.0, r);
    }
  }

  /** Galaxy: a spiral arm in the x-z plane reaching radius 25, flattened to
      a disk of thickness 5 in y. */
  lemma GalaxyShape(index: nat, total: nat, tr: Trig, d: Draws)
    requires total > 0 && index < total && Pythagorean(tr) && UnitDraws(d)
    ensures var p := TemplatePosition("galaxy", index, total, tr, d);
      p.x * p.x + p.z * p.z < 625.0 && -2.5 <= p.y < 2.5
  {
    KeysDistinct(Galaxy, Galaxy);
    var s := (index as real) / (total as real);
    assert s < 1.0 by { if s >= 1.0 { MulMono(1.0, s, total as real); } }
    assert TemplatePosition("galaxy", index, total, tr, d) == GalaxyPoint(s, tr, d);
    GalaxyPointShape(s, tr, d);
  }

  lemma GalaxyPointShape(s: real, tr: Trig, d: Draws)
    requires 0.0 <= s < 1.0 && Pythagorean(tr) && UnitDraws(d)
    ensures var p := GalaxyPoint(s, tr, d);
      p.x * p.x + p.z * p.z < 625.0 && -2.5 <= p.y < 2.5
  {
    var armR := s * 25.0;
    var a := Turn(s, tr) * 3.0 + armR * 0.2;
    var c, sn := tr.cos(a), tr.sin(a);
    assert c * c + sn * sn == 1.0;
    GalaxyPointUnfold(s, tr, d);
    OnCircle(armR, c, sn);
    SquareBetween(0.0, armR, 25.0);
  }

  /** Heart: inside the box |x| <= 12.8, |y| <= 16.8, |z| <= 5, the
      bounds its coefficients give when sine and cosine stay in [-1, 1]. */
  lemma HeartShape(index: nat, total: nat, tr: Trig, d: Draws)
    requires total > 0 && SinBounded(tr) && CosBounded(tr)
    ensures var p := TemplatePosition("heart", index, total, tr, d);
      -12.8 <= p.x <= 12.8 && -16.8 <= p.y <= 16.8 && -5.0 <= p.z <= 5.0
  {
    KeysDistinct(Heart, Heart);
    var s := (index as real) / (total as real);
    assert TemplatePosition("heart", index, total, tr, d) == HeartPoint(s, tr);
    HeartPointShape(s, tr);
  }

  lemma HeartPointShape(s: real, tr: Trig)
    requires SinBounded(tr) && CosBounded(tr)
    ensures var p := HeartPoint(s, tr);
      -12.8 <= p.x <= 12.8 && -16.8 <= p.y <= 16.8 && -5.0 <= p.z <= 5.0
  {
    var t := Turn(s, tr);
    var h := t * 2.0;
    var sh := tr.sin(h);
    assert -1.0 <= sh <= 1.0;
    CubeBound(sh);
    assert -1.0 <= tr.cos(h) <= 1.0 && -1.0 <= tr.cos(2.0 * h) <= 1.0;
    assert -1.0 <= tr.cos(3.0 * h) <= 1.0 && -1.0 <= tr.cos(4.0 * h) <= 1.0;
    assert -1.0 <= tr.sin(t * 3.0) <= 1.0;
  }

  /** A cube of a value in [-1, 1] stays in [-1, 1]. */
  lemma CubeBound(a: real)
    requires -1.0 <= a <= 1.0
    ensures -1.0 <= a * a * a <= 1.0
  {
    var sq := a * a;
    if a >= 0.0 {
      SquareGap(a, 1.0);
    } else {
      SquareGap(-a, 1.0);
      assert (-a) * (-a) == sq;
    }
    assert 0.0 <= sq <= 1.0;
    assert a * a * a == a * sq;
    if sq > 0.0 {
      MulMono(a, 1.0, sq);
      MulMono(-1.0, a, sq);
      assert -sq <= a * sq <= sq;
    } else {
      assert a * sq == 0.0;
    }
  }
}
