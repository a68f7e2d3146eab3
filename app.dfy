/** The demo's global state and the three procedures that change it:
    `createParticles` (rebuild the buffers for a template),
    `onHandResults` (classify a hand and maybe switch template) and one
    frame of `animate` (modulate, rotate, step every particle). */
module App {
  import opened Wrappers
  import opened Templates
  import opened Geometry
  import opened Gesture
  import opened Motion

  /** `(Math.random() - 0.5) * 0.02` on each axis: within [-0.01, 0.01)
      for draws in [0, 1). */
  function InitialVelocity(d: Draws): (v: Vec3)
    ensures v.x * 50.0 + 0.5 == d.vx && v.y * 50.0 + 0.5 == d.vy && v.z * 50.0 + 0.5 == d.vz
    ensures UnitDraws(d) ==> -0.01 <= v.x < 0.01 && -0.01 <= v.y < 0.01 && -0.01 <= v.z < 0.01
  {
    Vec3((d.vx - 0.5) * 0.02, (d.vy - 0.5) * 0.02, (d.vz - 0.5) * 0.02)
  }

  /** Writes `v` into coordinates `3i .. 3i+2` of a flat buffer (the
      `array[i3] = …; array[i3 + 1] = …; array[i3 + 2] = …` pattern). */
  method SetTriple(a: array<real>, i: nat, v: Vec3)
    requires 3 * i + 2 < a.Length
    modifies a
    ensures a[3 * i] == v.x && a[3 * i + 1] == v.y && a[3 * i + 2] == v.z
    ensures forall j :: 0 <= j < a.Length && j != 3 * i && j != 3 * i + 1 && j != 3 * i + 2 ==> a[j] == old(a[j])
  {
    a[3 * i] := v.x;
    a[3 * i + 1] := v.y;
    a[3 * i + 2] := v.z;
  }

  /** The loop of `createParticles` for `n` particles: particle `i` gets
      `shape(i)` (the template's `getTemplatePosition`) as target and as
      current position, the colour `base`, and a velocity from its draws. */
  method FillBuffers(n: nat, shape: nat -> Vec3, base: Vec3, draws: nat -> Draws)
    returns (pos: array<real>, col: array<real>, tgts: seq<Vec3>, vels: seq<Vec3>)
    ensures fresh(pos) && fresh(col) && pos != col
    ensures |tgts| == n && |vels| == n && pos.Length == 3 * n && col.Length == 3 * n
    ensures forall i :: 0 <= i < n ==> tgts[i] == shape(i) && vels[i] == InitialVelocity(draws(i))
    ensures forall i :: 0 <= i < n ==> pos[3 * i] == tgts[i].x && pos[3 * i + 1] == tgts[i].y && pos[3 * i + 2] == tgts[i].z
    ensures forall i :: 0 <= i < n ==> col[3 * i] == base.x && col[3 * i + 1] == base.y && col[3 * i + 2] == base.z
  {
    pos := new real[3 * n];
    col := new real[3 * n];
    tgts := [];
    vels := [];
    for i := 0 to n
      modifies pos, col
      invariant |tgts| == i && |vels| == i
      invariant forall k :: 0 <= k < i ==> tgts[k] == shape(k)
      invariant forall k :: 0 <= k < i ==> vels[k] == InitialVelocity(draws(k))
      invariant forall k :: 0 <= k < i ==> pos[3 * k] == tgts[k].x
      invariant forall k :: 0 <= k < i ==> pos[3 * k + 1] == tgts[k].y
      invariant forall k :: 0 <= k < i ==> pos[3 * k + 2] == tgts[k].z
      invariant forall k :: 0 <= k < i ==> col[3 * k] == base.x
      invariant forall k :: 0 <= k < i ==> col[3 * k + 1] == base.y
      invariant forall k :: 0 <= k < i ==> col[3 * k + 2] == base.z
    {
      var p := shape(i);
      SetTriple(pos, i, p);
      tgts := tgts + [p];
      SetTriple(col, i, base);
      vels := vels + [InitialVelocity(draws(i))];
    }
  }

  /** The loop of `animate` over the flat buffers: particle `i` moves by
      its velocity, then its velocity is pulled towards the target scaled
      by `expansion` and damped (StepAxis, one axis at a time); when
      `colorShift` is positive its colour becomes `tint(i)`. Returns the
      new velocities. */
  method StepBuffers(pos: array<real>, col: array<real>, targets: seq<Vec3>, vels0: seq<Vec3>,
                     expansion: real, colorShift: real, tint: nat -> Vec3)
    returns (vels: seq<Vec3>)
    requires pos != col && pos.Length == 3 * |targets| && col.Length == 3 * |targets|
    requires |vels0| == |targets|
    modifies pos, col
    ensures |vels| == |targets|
    ensures forall i :: 0 <= i < |targets| ==>
      var r := StepParticle(Vec3(old(pos[3 * i]), old(pos[3 * i + 1]), old(pos[3 * i + 2])), vels0[i], targets[i], expansion);
      pos[3 * i] == r.0.x && pos[3 * i + 1] == r.0.y && pos[3 * i + 2] == r.0.z && vels[i] == r.1
    ensures colorShift > 0.0 ==> forall i :: 0 <= i < |targets| ==>
      col[3 * i] == tint(i).x && col[3 * i + 1] == tint(i).y && col[3 * i + 2] == tint(i).z
    ensures colorShift <= 0.0 ==> forall j :: 0 <= j < col.Length ==> col[j] == old(col[j])
  {
    var n := |targets|;
    ghost var pos0 := pos[..];
    ghost var col0 := col[..];
    vels := vels0;
    var i := 0;
    while i < n
      invariant 0 <= i <= n && |vels| == n
      invariant forall k :: 0 <= k < i ==>
        var r := StepParticle(Vec3(pos0[3 * k], pos0[3 * k + 1], pos0[3 * k + 2]), vels0[k], targets[k], expansion);
        pos[3 * k] == r.0.x && pos[3 * k + 1] == r.0.y && pos[3 * k + 2] == r.0.z && vels[k] == r.1
      invariant forall j :: 3 * i <= j < 3 * n ==> pos[j] == pos0[j]
      invariant forall k :: i <= k < n ==> vels[k] == vels0[k]
      invariant colorShift > 0.0 ==> forall k :: 0 <= k < i ==>
        col[3 * k] == tint(k).x && col[3 * k + 1] == tint(k).y && col[3 * k + 2] == tint(k).z
      invariant forall j :: 3 * i <= j < 3 * n ==> col[j] == col0[j]
      invariant colorShift <= 0.0 ==> forall j :: 0 <= j < 3 * n ==> col[j] == col0[j]
    {
      var goal := Scaled(targets[i], expansion);
      var vel := vels[i];
      var sx := StepAxis(pos[3 * i], vel.x, goal.x);
      var sy := StepAxis(pos[3 * i + 1], vel.y, goal.y);
      var sz := StepAxis(pos[3 * i + 2], vel.z, goal.z);
      SetTriple(pos, i, Vec3(sx.0, sy.0, sz.0));
      vels := vels[i := Vec3(sx.1, sy.1, sz.1)];
      if colorShift > 0.0 {
        SetTriple(col, i, tint(i));
      }
      i := i + 1;
    }
  }

  class ParticleApp {
    /** `Math.sin`/`Math.cos`/`Math.acos`/`Math.PI`. */
    const trig: Trig
    /** `new THREE.Color(hex)`, as an RGB triple. */
    const colorOf: int -> Vec3
    /** `new THREE.Color().setHSL(hue, 1, 0.5)`, as an RGB triple. */
    const hsl: real -> Vec3

    /** The geometry's position and colour attributes (3 floats per particle). */
    var positions: array<real>
    var colors: array<real>
    /** `targetPositions` and `particleVelocities`, one entry per particle. */
    var targets: seq<Vec3>
    var velocities: seq<Vec3>
    var currentHand: Option<Hand>
    var currentTemplate: TemplateName
    var lastGestureChange: int
    /** `particleSystem.rotation` about x and y. */
    var rotation: Rotation

    /** The buffers agree in length with each other and with the active
        template's count. */
    ghost predicate Valid()
      reads this
    {
      positions != colors &&
      |targets| == Count(currentTemplate) &&
      positions.Length == 3 * |targets| && colors.Length == 3 * |targets| &&
      |velocities| == |targets| &&
      HandOk(currentHand)
    }

    /** Particle `i`'s entry in the position buffer. */
    ghost function PositionAt(i: nat): Vec3
      requires 3 * i + 2 < positions.Length
      reads this`positions, positions
    {
      Vec3(positions[3 * i], positions[3 * i + 1], positions[3 * i + 2])
    }

    /** Particle `i`'s entry in the colour buffer. */
    ghost function ColorAt(i: nat): Vec3
      requires 3 * i + 2 < colors.Length
      reads this`colors, colors
    {
      Vec3(colors[3 * i], colors[3 * i + 1], colors[3 * i + 2])
    }

    /** The buffers are exactly what `createParticles(name)` builds with the
        given random draws: targets from the template, positions on the
        targets, every colour the base colour, velocities from the draws. */
    ghost predicate BuiltFrom(name: TemplateName, draws: nat -> Draws)
      requires Valid()
      reads this, positions, colors
    {
      currentTemplate == name &&
      forall i :: 0 <= i < |targets| ==>
        targets[i] == ShapePosition(name, i, |targets|, trig, draws(i)) &&
        PositionAt(i) == targets[i] &&
        ColorAt(i) == colorOf(Color(name)) &&
        velocities[i] == InitialVelocity(draws(i))
    }

    /** Page load: the initial globals, then `createParticles('spiral')`. */
    constructor (trig: Trig, colorOf: int -> Vec3, hsl: real -> Vec3, draws: nat -> Draws)
      ensures Valid() && BuiltFrom(Spiral, draws)
      ensures this.trig == trig && this.colorOf == colorOf && this.hsl == hsl
      ensures currentHand == None && lastGestureChange == 0 && rotation == Rotation(0.0, 0.0)
    {
      this.trig := trig;
      this.colorOf := colorOf;
      this.hsl := hsl;
      positions := new real[0];
      colors := new real[0];
      targets := [];
      velocities := [];
      currentHand := None;
      currentTemplate := Spiral;
      lastGestureChange := 0;
      rotation := Rotation(0.0, 0.0);
      new;
      CreateParticles(Spiral, draws);
    }

    /** Replaces every buffer with a fresh one for `name`; particle `i`
        uses the draws `draws(i)`. The new particle system starts
        unrotated. */
    method CreateParticles(name: TemplateName, draws: nat -> Draws)
      requires HandOk(currentHand)
      modifies this
      ensures Valid() && BuiltFrom(name, draws)
      ensures fresh(positions) && fresh(colors)
      ensures rotation == Rotation(0.0, 0.0)
      ensures currentHand == old(currentHand) && lastGestureChange == old(lastGestureChange)
    {
      var n := Count(name);
      var pos, col, tgts, vels :=
        FillBuffers(n, (k: nat) => ShapePosition(name, k, n, trig, draws(k)), colorOf(Color(name)), draws);
      positions, colors, targets, velocities := pos, col, tgts, vels;
      rotation := Rotation(0.0, 0.0);
      currentTemplate := name;
    }

    /** Handles one MediaPipe result at time `now`. The status and the new
        (template, stamp) pair are those Interpret gives; the buffers are
        rebuilt exactly when the status is a switch, and are otherwise left
        alone. */
    method OnHandResults(hands: seq<Hand>, now: int, draws: nat -> Draws) returns (status: Status)
      requires Valid()
      requires |hands| > 0 ==> WellFormed(hands[0])
      modifies this
      ensures Valid()
      ensures currentHand == FirstHand(hands)
      ensures (status, GestureState(currentTemplate, lastGestureChange))
           == Interpret(old(GestureState(currentTemplate, lastGestureChange)), FirstHand(hands), now)
      ensures status.Switched? ==>
        BuiltFrom(status.to, draws) && fresh(positions) && fresh(colors) && rotation == Rotation(0.0, 0.0)
      ensures !status.Switched? ==>
        positions == old(positions) && colors == old(colors) && targets == old(targets) &&
        velocities == old(velocities) && rotation == old(rotation)
    {
      if |hands| > 0 {
        currentHand := Some(hands[0]);
        var h := hands[0];
        if IsPinch(h) {
          status := Pinch;
        } else if FingerCount(h) == 2 && now - lastGestureChange > DebounceMs {
          var newTemplate := Order[(IndexOf(currentTemplate) + 1) % |Order|];
          CreateParticles(newTemplate, draws);
          status := Switched(newTemplate);
          lastGestureChange := now;
        } else if FingerCount(h) >= 3 {
          status := OpenHand;
        } else {
          status := HandDetected;
        }
      } else {
        currentHand := None;
        status := Waiting;
      }
    }

    /** One frame of `animate`: the rotation moves as NextRotation says,
        every particle takes one StepParticle towards its target scaled by
        the frame's expansion, and colours are rewritten from the hue cycle
        only when the colour phase is positive; otherwise they keep whatever
        they last held. */
    method Animate(now: int)
      requires Valid()
      modifies this, positions, colors
      ensures Valid()
      ensures positions == old(positions) && colors == old(colors) && targets == old(targets)
      ensures currentHand == old(currentHand) && currentTemplate == old(currentTemplate)
      ensures lastGestureChange == old(lastGestureChange)
      ensures rotation == NextRotation(old(rotation), currentHand)
      ensures var m := ModulationFor(currentHand, now, trig.sin);
        forall i :: 0 <= i < |targets| ==>
          (PositionAt(i), velocities[i])
            == StepParticle(old(PositionAt(i)), old(velocities)[i], targets[i], m.expansion)
      ensures var m := ModulationFor(currentHand, now, trig.sin);
        m.colorShift > 0.0 ==>
          forall i :: 0 <= i < |targets| ==> ColorAt(i) == hsl(Hue(i, |targets|, m.colorShift))
      ensures var m := ModulationFor(currentHand, now, trig.sin);
        m.colorShift <= 0.0 ==> forall i :: 0 <= i < |targets| ==> ColorAt(i) == old(ColorAt(i))
    {
      var expansionFactor := 1.0;
      var colorShift := 0.0;
      if currentHand.Some? {
        var h := currentHand.value;
        if IsPinch(h) {
          expansionFactor := 2.0 + trig.sin((now as real) * 0.005);
          colorShift := (now as real) * 0.001;
        }
        var palm := PalmTarget(h);
        rotation := Rotation(rotation.x + (palm.x - rotation.x) * Follow, rotation.y + (palm.y - rotation.y) * Follow);
      }
      ghost var m := ModulationFor(currentHand, now, trig.sin);
      assert m == Modulation(expansionFactor, colorShift);

      StepAll(expansionFactor, colorShift);
      rotation := Rotation(rotation.x, rotation.y + Spin);
    }

    /** The particle loop of `animate`: every particle takes one
        StepParticle towards its target scaled by `expansion`; when
        `colorShift` is positive every colour is rewritten from the hue
        cycle, otherwise the colour buffer is left as it was. */
    method StepAll(expansion: real, colorShift: real)
      requires Valid()
      modifies this`velocities, positions, colors
      ensures Valid()
      ensures forall i :: 0 <= i < |targets| ==>
        (PositionAt(i), velocities[i])
          == StepParticle(old(PositionAt(i)), old(velocities)[i], targets[i], expansion)
      ensures colorShift > 0.0 ==>
        forall i :: 0 <= i < |targets| ==> ColorAt(i) == hsl(Hue(i, |targets|, colorShift))
      ensures colorShift <= 0.0 ==> forall i :: 0 <= i < |targets| ==> ColorAt(i) == old(ColorAt(i))
    {
      var n := |targets|;
      velocities := StepBuffers(positions, colors, targets, velocities, expansion, colorShift,
        (k: nat) => hsl(Hue(k, n, colorShift)));
    }
  }
}
