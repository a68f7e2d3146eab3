/** The arithmetic of one animation frame: the gesture modulation, the
    rotation smoothing, the spring/damping step of one particle, and the
    colour-cycle hue. */
module Motion {
  import opened Wrappers
  import opened Numbers
  import opened Geometry
  import opened Gesture

  /** What a frame applies to every particle: the factor targets are scaled
      by, and the colour-cycle phase (0 means colours are left alone). */
  datatype Modulation = Modulation(expansion: real, colorShift: real)

  predicate Pinching(hand: Option<Hand>)
    requires HandOk(hand)
  {
    hand.Some? && IsPinch(hand.value)
  }

  /** Expansion 1 and no colour shift unless a hand is present and pinching;
      while pinching the expansion pulses as `2 + sin(now * 0.005)` and the
      phase is `now * 0.001`. */
  function ModulationFor(hand: Option<Hand>, now: int, sin: real -> real): (m: Modulation)
    requires HandOk(hand)
    ensures !Pinching(hand) ==> m == Modulation(1.0, 0.0)
    ensures Pinching(hand) ==> m.expansion - 2.0 == sin((now as real) * 0.005) && m.colorShift * 1000.0 == now as real
  {
    if Pinching(hand) then
      Modulation(2.0 + sin((now as real) * 0.005), (now as real) * 0.001)
    else
      Modulation(1.0, 0.0)
  }

  /** For a sine bounded by 1 the expansion stays in [1, 3], and colours
      are rewritten exactly when the hand pinches at a positive clock. */
  lemma ModulationRange(hand: Option<Hand>, now: int, sin: real -> real)
    requires HandOk(hand)
    requires forall a :: -1.0 <= sin(a) <= 1.0
    ensures var m := ModulationFor(hand, now, sin);
      1.0 <= m.expansion <= 3.0 && (m.colorShift > 0.0 <==> Pinching(hand) && now > 0)
  {
    var a := (now as real) * 0.005;
    assert -1.0 <= sin(a) <= 1.0;
  }

  /** Rotation of the particle system about x and y. */
  datatype Rotation = Rotation(x: real, y: real)

  const Follow: real := 0.05
  const Spin: real := 0.001

  /** The rotation the palm (landmark 0) asks for: `palmY` about x and
      `palmX` about y, each 100 per unit away from the image centre. */
  function PalmTarget(h: Hand): Rotation
    requires WellFormed(h)
  {
    Rotation(-(h[Wrist].y - 0.5) * 100.0, (h[Wrist].x - 0.5) * 100.0)
  }

  /** One frame of rotation while a hand is seen: both angles close 5% of
      their gap to the target `p`, then y gains the 0.001 background spin.
      Stated as gaps: the x gap shrinks by 0.95, and so does the y gap to
      the point 0.02 past the target, where follow and spin balance. */
  function Track(rot: Rotation, p: Rotation): (r: Rotation)
    ensures p.x - r.x == 0.95 * (p.x - rot.x)
    ensures (p.y + 0.02) - r.y == 0.95 * ((p.y + 0.02) - rot.y)
  {
    var followed := Rotation(rot.x + (p.x - rot.x) * Follow, rot.y + (p.y - rot.y) * Follow);
    Rotation(followed.x, followed.y + Spin)
  }

  /** One frame of rotation: with a hand, Track towards the palm target;
      without one, only the background spin. */
  function NextRotation(rot: Rotation, hand: Option<Hand>): (r: Rotation)
    requires HandOk(hand)
    ensures hand.None? ==> r == Rotation(rot.x, rot.y + Spin)
    ensures hand.Some? ==> r == Track(rot, PalmTarget(hand.value))
  {
    match hand
    case None => Rotation(rot.x, rot.y + Spin)
    case Some(h) => Track(rot, PalmTarget(h))
  }

  /** `k` frames tracking the same target (the palm held still). */
  function TrackAfter(rot: Rotation, p: Rotation, k: nat): Rotation {
    if k == 0 then rot else Track(TrackAfter(rot, p, k - 1), p)
  }

  /** A gap that is 0.95^(k-1) of the initial one and then shrinks by
      0.95 is 0.95^k of the initial one. */
  lemma GapShrinks(g0: real, gPrev: real, gNext: real, k: nat)
    requires k > 0 && gPrev == Pow(0.95, k - 1) * g0 && gNext == 0.95 * gPrev
    ensures gNext == Pow(0.95, k) * g0
  {
    assert Pow(0.95, k) == 0.95 * Pow(0.95, k - 1);
  }

  /** The x half of RotationSettles. */
  lemma {:induction false} PitchSettles(rot: Rotation, p: Rotation, k: nat)
    ensures p.x - TrackAfter(rot, p, k).x == Pow(0.95, k) * (p.x - rot.x)
  {
    if k > 0 {
      PitchSettles(rot, p, k - 1);
      var prev := TrackAfter(rot, p, k - 1);
      GapShrinks(p.x - rot.x, p.x - prev.x, p.x - Track(prev, p).x, k);
    }
  }

  /** The y half of RotationSettles, measured from the balance point. */
  lemma {:induction false} YawSettles(rot: Rotation, p: Rotation, k: nat)
    ensures (p.y + 0.02) - TrackAfter(rot, p, k).y == Pow(0.95, k) * ((p.y + 0.02) - rot.y)
  {
    if k > 0 {
      YawSettles(rot, p, k - 1);
      var prev := TrackAfter(rot, p, k - 1);
      GapShrinks((p.y + 0.02) - rot.y, (p.y + 0.02) - prev.y, (p.y + 0.02) - Track(prev, p).y, k);
    }
  }

  /** Holding the palm still, the rotation converges geometrically: after
      `k` frames both gaps are 0.95^k of the starting gaps. */
  lemma RotationSettles(rot: Rotation, p: Rotation, k: nat)
    ensures var r := TrackAfter(rot, p, k);
      p.x - r.x == Pow(0.95, k) * (p.x - rot.x) &&
      (p.y + 0.02) - r.y == Pow(0.95, k) * ((p.y + 0.02) - rot.y)
  {
    PitchSettles(rot, p, k);
    YawSettles(rot, p, k);
  }

  const Spring: real := 0.001
  const Damping: real := 0.95

  /** One frame of one coordinate: move by the velocity, then pull the
      velocity towards `goal` with the spring and damp it. Returns the new
      position and velocity. */
  function StepAxis(p: real, v: real, goal: real): (real, real) {
    var p1 := p + v;
    (p1, (v + (goal - p1) * Spring) * Damping)
  }

  /** `target * expansion`, the point a particle is pulled towards. */
  function Scaled(target: Vec3, expansion: real): Vec3 {
    Vec3(target.x * expansion, target.y * expansion, target.z * expansion)
  }

  /** One frame of one particle, aiming at its target scaled by the
      expansion factor. Each coordinate follows StepAxis independently. */
  function StepParticle(pos: Vec3, vel: Vec3, target: Vec3, expansion: real): (r: (Vec3, Vec3))
    ensures var g := Scaled(target, expansion);
      (r.0.x, r.1.x) == StepAxis(pos.x, vel.x, g.x) &&
      (r.0.y, r.1.y) == StepAxis(pos.y, vel.y, g.y) &&
      (r.0.z, r.1.z) == StepAxis(pos.z, vel.z, g.z)
  {
    var p := Vec3(pos.x + vel.x, pos.y + vel.y, pos.z + vel.z);
    var g := Scaled(target, expansion);
    var dx := g.x - p.x;
    var dy := g.y - p.y;
    var dz := g.z - p.z;
    (p, Vec3((vel.x + dx * Spring) * Damping, (vel.y + dy * Spring) * Damping, (vel.z + dz * Spring) * Damping))
  }

  /** A quadratic energy of the displacement `e` from the goal and the
      velocity `v`; positive definite (EnergyBoundsError). */
  function Energy(e: real, v: real): real {
    0.0019 * e * e + 0.1019 * e * v + 2.0 * v * v
  }

  /** The spring/damping step is a contraction: it multiplies the energy of
      the displacement from the goal by exactly 0.95 each frame. */
  lemma EnergyContracts(p: real, v: real, goal: real)
    ensures var r := StepAxis(p, v, goal); Energy(r.0 - goal, r.1) == Damping * Energy(p - goal, v)
  {
    var e := p - goal;
    var r := StepAxis(p, v, goal);
    assert r.0 - goal == e + v;
    assert r.1 == 0.94905 * v - 0.00095 * e;
    EnergyIdentity(e, v);
  }

  lemma EnergyIdentity(e: real, v: real)
    ensures Energy(e + v, 0.94905 * v - 0.00095 * e) == 0.95 * Energy(e, v)
  {
    var w := 0.94905 * v - 0.00095 * e;
    assert (e + v) * (e + v) == e * e + 2.0 * e * v + v * v;
    assert (e + v) * w == 0.94905 * e * v - 0.00095 * e * e + 0.94905 * v * v - 0.00095 * e * v;
    assert w * w == 0.9006959025 * v * v - 0.00180319500 * e * v + 0.0000009025 * e * e;
  }

  /** The energy bounds the squared displacement from the goal. */
  lemma EnergyBoundsError(e: real, v: real)
    ensures 0.0005 * e * e <= Energy(e, v)
  {
    var u := v + 0.025475 * e;
    assert Energy(e, v) - 0.0005 * e * e == 2.0 * (u * u) + 0.00010204875 * (e * e);
    assert u * u >= 0.0 && e * e >= 0.0;
  }

  /** `k` frames of one coordinate with the goal held fixed. */
  function StepAxisN(p: real, v: real, goal: real, k: nat): (real, real) {
    if k == 0 then (p, v)
    else
      var r := StepAxisN(p, v, goal, k - 1);
      StepAxis(r.0, r.1, goal)
  }

  /** With the expansion held constant, a particle converges to its scaled
      target: after `k` frames its energy is 0.95^k of the initial one, and
      its squared displacement is at most 2000 * 0.95^k times that. */
  lemma {:induction false} Converges(p: real, v: real, goal: real, k: nat)
    ensures var r := StepAxisN(p, v, goal, k);
      Energy(r.0 - goal, r.1) == Pow(Damping, k) * Energy(p - goal, v) &&
      (r.0 - goal) * (r.0 - goal) <= 2000.0 * Pow(Damping, k) * Energy(p - goal, v)
  {
    var r := StepAxisN(p, v, goal, k);
    if k > 0 {
      Converges(p, v, goal, k - 1);
      var q := StepAxisN(p, v, goal, k - 1);
      EnergyContracts(q.0, q.1, goal);
      assert Damping * (Pow(Damping, k - 1) * Energy(p - goal, v)) == Pow(Damping, k) * Energy(p - goal, v);
    }
    EnergyBoundsError(r.0 - goal, r.1);
  }

  /** The displacement itself is not monotone: a particle sitting on its
      goal with the initial velocity jitter moves away from it first. */
  lemma DisplacementCanGrow()
    ensures var r := StepAxis(0.0, 0.01, 0.0); r.0 * r.0 > 0.0
  {
  }

  /** A particle at rest on its goal stays there. */
  lemma RestIsFixed(goal: real)
    ensures StepAxis(goal, 0.0, goal) == (goal, 0.0)
  {
  }

  /** `(i / n + shift) % 1`: the hue of particle `i` of `n` while colours
      cycle. For a nonnegative phase it is the fractional part, in [0, 1). */
  function Hue(i: nat, n: nat, shift: real): (h: real)
    requires n > 0
    ensures shift >= 0.0 ==> 0.0 <= h < 1.0
    ensures shift >= 0.0 ==> h == ((i as real) / (n as real) + shift) - ((i as real) / (n as real) + shift).Floor as real
  {
    var a := (i as real) / (n as real) + shift;
    assert shift >= 0.0 ==> a >= 0.0;
    JsRem(a, 1.0)
  }
}
