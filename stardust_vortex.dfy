/** The decorative background: a fixed field of particles that ease toward
    a slowly turning ring around a focal point and drift toward the viewer,
    respawning far away when they reach the screen. Drawing calls are not
    modelled; a frame yields the circles it would draw. */
module StardustVortex {
  import opened Canvas
  import opened Wrappers

  /** `particleCount` (line 32). */
  const ParticleCount: nat := 80
  /** The clock advance of one frame (line 68). */
  const TimeStep: real := 0.002
  /** The share of the way to its target a particle moves per frame (lines 81-82). */
  const Easing: real := 0.02
  /** The depth a particle respawns at (line 87). */
  const FarDepth: real := 100.0

  datatype Particle = Particle(x: real, y: real, z: real, vx: real, vy: real, vz: real,
                               size: real, opacity: real)

  /** A value of `Math.random()`. */
  predicate IsRandom(r: real) {
    0.0 <= r < 1.0
  }

  /** The six `Math.random()` values one new particle draws, in call order. */
  datatype Seed = Seed(angle: real, radius: real, depth: real, drift: real, size: real, opacity: real)

  predicate IsSeed(s: Seed) {
    IsRandom(s.angle) && IsRandom(s.radius) && IsRandom(s.depth)
    && IsRandom(s.drift) && IsRandom(s.size) && IsRandom(s.opacity)
  }

  /** One particle of the initialisation loop (lines 37-50). */
  function Spawn(cx: real, cy: real, s: Seed, sin: real -> real, cos: real -> real): (p: Particle)
    requires IsSeed(s) && UnitRange(sin) && UnitRange(cos)
    ensures 0.0 <= p.z < FarDepth
    ensures -0.3 <= p.vz < -0.2
    ensures 1.0 <= p.size < 3.0 && 0.3 <= p.opacity < 1.0
    ensures Abs(p.x - cx) <= 200.0 && Abs(p.y - cy) <= 200.0
    ensures Abs(p.vx) <= 0.1 && Abs(p.vy) <= 0.1
  {
    var angle := s.angle * TwoPi;
    var radius := s.radius * 150.0 + 50.0;
    ScaledBound(cos, angle, radius);
    ScaledBound(sin, angle, radius);
    ScaledBound(cos, angle, 0.1);
    ScaledBound(sin, angle, 0.1);
    Particle(cx + cos(angle) * radius, cy + sin(angle) * radius, s.depth * 100.0,
             cos(angle) * 0.1, sin(angle) * 0.1, -0.3 + s.drift * 0.1,
             s.size * 2.0 + 1.0, s.opacity * 0.7 + 0.3)
  }

  /** The two `Math.random()` values a respawning particle draws. */
  datatype Jitter = Jitter(dx: real, dy: real)

  predicate IsJitter(j: Jitter) {
    IsRandom(j.dx) && IsRandom(j.dy)
  }

  /** Where particle `i` of `n` is pulled at clock `time` (lines 75-78). */
  function VortexTarget(cx: real, cy: real, time: real, i: nat, n: nat,
                        sin: real -> real, cos: real -> real): (t: Point)
    requires n > 0 && UnitRange(sin) && UnitRange(cos)
    ensures Abs(t.x - cx) <= 160.0 && Abs(t.y - cy) <= 160.0
  {
    var angle := time + (i as real / n as real) * TwoPi;
    var radius := 120.0 + sin(angle * 0.3) * 40.0;
    ScaledBound(sin, angle * 0.3, 40.0);
    ScaledBound(cos, angle, radius);
    ScaledBound(sin, angle, radius);
    Point(cx + cos(angle) * radius, cy + sin(angle) * radius)
  }

  /** The update of one particle in a frame (lines 81-90). */
  function Advance(p: Particle, target: Point, cx: real, cy: real, j: Jitter): (q: Particle)
    ensures q.vx == p.vx && q.vy == p.vy && q.vz == p.vz && q.size == p.size && q.opacity == p.opacity
    ensures p.z + p.vz > 0.0 ==> q.z == p.z + p.vz
    ensures p.z + p.vz <= 0.0 ==> q.z == FarDepth
  {
    var x := p.x + (target.x - p.x) * Easing;
    var y := p.y + (target.y - p.y) * Easing;
    var z := p.z + p.vz;
    if z <= 0.0 then
      p.(x := cx + (j.dx - 0.5) * 300.0, y := cy + (j.dy - 0.5) * 300.0, z := FarDepth)
    else
      p.(x := x, y := y, z := z)
  }

  /** Without a respawn a frame is a 2% step toward the target: the offset
      from the target shrinks to 98% of itself, so the distance never grows. */
  lemma EasingContracts(p: Particle, target: Point, cx: real, cy: real, j: Jitter)
    requires p.z + p.vz > 0.0
    ensures var q := Advance(p, target, cx, cy, j);
            && q.x - target.x == 0.98 * (p.x - target.x)
            && q.y - target.y == 0.98 * (p.y - target.y)
            && Abs(q.x - target.x) <= Abs(p.x - target.x)
            && Abs(q.y - target.y) <= Abs(p.y - target.y)
  {
  }

  /** A respawned particle starts at the far depth within 150 of the focal
      point on each axis. */
  lemma RespawnNearCenter(p: Particle, target: Point, cx: real, cy: real, j: Jitter)
    requires p.z + p.vz <= 0.0 && IsJitter(j)
    ensures var q := Advance(p, target, cx, cy, j);
            && q.z == FarDepth
            && -150.0 <= q.x - cx < 150.0 && -150.0 <= q.y - cy < 150.0
  {
  }

  /** Before any frame: depth in [0, 100] and drifting toward the viewer. */
  predicate Drifting(p: Particle) {
    0.0 <= p.z <= FarDepth && p.vz < 0.0
  }

  /** After a frame the depth is positive and at most the far depth. */
  predicate OnScreen(p: Particle) {
    0.0 < p.z <= FarDepth && p.vz < 0.0
  }

  /** A frame keeps a drifting particle drifting, and puts it on screen. */
  lemma {:induction false} AdvanceKeepsDepth(p: Particle, target: Point, cx: real, cy: real, j: Jitter)
    requires p.z <= FarDepth && p.vz < 0.0
    ensures OnScreen(Advance(p, target, cx, cy, j))
  {
  }

  /** One frame over the whole field, given the clock after the frame's tick. */
  function Step(ps: seq<Particle>, cx: real, cy: real, time: real,
                sin: real -> real, cos: real -> real, js: seq<Jitter>): (qs: seq<Particle>)
    requires UnitRange(sin) && UnitRange(cos) && |js| == |ps|
    ensures |qs| == |ps|
  {
    seq(|ps|, i requires 0 <= i < |ps| =>
      Advance(ps[i], VortexTarget(cx, cy, time, i, |ps|, sin, cos), cx, cy, js[i]))
  }

  /** One frame puts every drifting particle on screen. */
  lemma StepPutsOnScreen(ps: seq<Particle>, cx: real, cy: real, time: real,
                         sin: real -> real, cos: real -> real, js: seq<Jitter>)
    requires UnitRange(sin) && UnitRange(cos) && |js| == |ps|
    requires forall i :: 0 <= i < |ps| ==> ps[i].z <= FarDepth && ps[i].vz < 0.0
    ensures forall i :: 0 <= i < |ps| ==> OnScreen(Step(ps, cx, cy, time, sin, cos, js)[i])
  {
    var qs := Step(ps, cx, cy, time, sin, cos, js);
    forall i | 0 <= i < |ps|
      ensures OnScreen(qs[i])
    {
      AdvanceKeepsDepth(ps[i], VortexTarget(cx, cy, time, i, |ps|, sin, cos), cx, cy, js[i]);
    }
  }

  /** `frames` frames in a row starting from clock `time`, one sequence of
      respawn draws per frame. */
  function Run(ps: seq<Particle>, cx: real, cy: real, time: real,
               sin: real -> real, cos: real -> real, frames: seq<seq<Jitter>>): (qs: seq<Particle>)
    requires UnitRange(sin) && UnitRange(cos)
    requires forall k :: 0 <= k < |frames| ==> |frames[k]| == |ps|
    decreases |frames|
  {
    if |frames| == 0 then ps
    else
      var next := Step(ps, cx, cy, time + TimeStep, sin, cos, frames[0]);
      Run(next, cx, cy, time + TimeStep, sin, cos, frames[1..])
  }

  /** However many frames run, the field keeps its size, and if every particle
      starts with depth at most 100 and drifts toward the viewer, then after
      at least one frame every depth lies in (0, 100]; the drift, size and
      opacity of every particle never change. */
  lemma {:induction false} RunKeepsField(ps: seq<Particle>, cx: real, cy: real, time: real,
                                         sin: real -> real, cos: real -> real, frames: seq<seq<Jitter>>)
    requires UnitRange(sin) && UnitRange(cos)
    requires forall k :: 0 <= k < |frames| ==> |frames[k]| == |ps|
    requires forall i :: 0 <= i < |ps| ==> ps[i].z <= FarDepth && ps[i].vz < 0.0
    decreases |frames|
    ensures var qs := Run(ps, cx, cy, time, sin, cos, frames);
            && |qs| == |ps|
            && (forall i :: 0 <= i < |qs| ==> qs[i].z <= FarDepth && qs[i].vz < 0.0)
            && (|frames| > 0 ==> forall i :: 0 <= i < |qs| ==> OnScreen(qs[i]))
            && (forall i :: 0 <= i < |qs| ==>
                  qs[i].vz == ps[i].vz && qs[i].size == ps[i].size && qs[i].opacity == ps[i].opacity
                  && qs[i].vx == ps[i].vx && qs[i].vy == ps[i].vy)
  {
    if |frames| > 0 {
      var next := Step(ps, cx, cy, time + TimeStep, sin, cos, frames[0]);
      StepPutsOnScreen(ps, cx, cy, time + TimeStep, sin, cos, frames[0]);
      RunKeepsField(next, cx, cy, time + TimeStep, sin, cos, frames[1..]);
      if |frames| > 1 {
        assert |frames[1..]| > 0;
      }
    }
  }

  /** A circle the frame draws for one particle, with its optional glow. */
  datatype Sprite = Sprite(center: Point, radius: real, alpha: real, glow: Option<Glow>)
  datatype Glow = Glow(radius: real, alpha: real)

  /** The drawing part of the frame loop (lines 93-108). */
  function Look(p: Particle): (s: Sprite)
    ensures s.center == Point(p.x, p.y)
    ensures s.radius >= 0.5
    ensures s.glow.Some? <==> p.z / 100.0 > 0.7
    ensures s.glow.Some? ==> s.glow.value.radius >= 1.0
  {
    var scale := p.z / 100.0;
    var drawSize := p.size * scale * 1.5;
    var alpha := p.opacity * 0.6;
    Sprite(Point(p.x, p.y), Max(drawSize, 0.5), alpha,
           if scale > 0.7 then Some(Glow(Max(drawSize * 1.5, 1.0), alpha * 0.3)) else None)
  }

  /** For a particle on screen the perspective scale lies in (0, 1], and the
      glow is drawn exactly for the nearest 30% of the depth range. */
  lemma ScaleInUnitRange(p: Particle)
    requires OnScreen(p)
    ensures 0.0 < p.z / 100.0 <= 1.0
    ensures Look(p).glow.Some? <==> p.z > 70.0
  {
  }

  /** The field as the component holds it: the particle array built once on
      mount, the focal point and the frame clock. */
  class ParticleField {
    const centerX: real
    const centerY: real
    const particles: array<Particle>
    var time: real

    ghost predicate Valid()
      reads this, particles
    {
      particles.Length == ParticleCount
      && forall i :: 0 <= i < particles.Length ==> Drifting(particles[i])
    }

    /** Mounting: the focal point from the viewport and the initialisation
        loop, one seed of random draws per particle. */
    constructor (viewportWidth: real, viewportHeight: real, seeds: seq<Seed>,
                 sin: real -> real, cos: real -> real)
      requires |seeds| == ParticleCount && UnitRange(sin) && UnitRange(cos)
      requires forall i :: 0 <= i < |seeds| ==> IsSeed(seeds[i])
      ensures Valid() && fresh(particles) && time == 0.0
      ensures centerX == viewportWidth * 0.5 && centerY == viewportHeight * 0.25
      ensures forall i :: 0 <= i < ParticleCount ==>
                particles[i] == Spawn(centerX, centerY, seeds[i], sin, cos)
    {
      var cx := viewportWidth * 0.5;
      var cy := viewportHeight * 0.25;
      var built: seq<Particle> := [];
      for i := 0 to ParticleCount
        invariant |built| == i
        invariant forall k :: 0 <= k < i ==> built[k] == Spawn(cx, cy, seeds[k], sin, cos)
      {
        built := built + [Spawn(cx, cy, seeds[i], sin, cos)];
      }
      centerX, centerY := cx, cy;
      particles := new Particle[ParticleCount](k requires 0 <= k < ParticleCount => built[k]);
      time := 0.0;
    }

    /** One call of `animate`: the clock ticks, then every particle is
        advanced in place, in index order, and drawn. `jitters[i]` are the
        draws particle `i` uses if it respawns. */
    method Animate(sin: real -> real, cos: real -> real, jitters: seq<Jitter>) returns (sprites: seq<Sprite>)
      requires Valid() && UnitRange(sin) && UnitRange(cos)
      requires |jitters| == particles.Length
      modifies this, particles
      ensures Valid()
      ensures time == old(time) + TimeStep
      ensures particles[..] == Step(old(particles[..]), centerX, centerY, time, sin, cos, jitters)
      ensures forall i :: 0 <= i < particles.Length ==> OnScreen(particles[i])
      ensures |sprites| == particles.Length
      ensures forall i :: 0 <= i < |sprites| ==> sprites[i] == Look(particles[i])
    {
      ghost var before := particles[..];
      time := time + TimeStep;
      ghost var after := Step(before, centerX, centerY, time, sin, cos, jitters);
      StepPutsOnScreen(before, centerX, centerY, time, sin, cos, jitters);
      var n := particles.Length;
      sprites := [];
      for i := 0 to n
        invariant time == old(time) + TimeStep
        invariant |sprites| == i
        invariant forall k :: 0 <= k < i ==> particles[k] == after[k]
        invariant forall k :: i <= k < n ==> particles[k] == before[k]
        invariant forall k :: 0 <= k < i ==> sprites[k] == Look(after[k])
      {
        var target := VortexTarget(centerX, centerY, time, i, n, sin, cos);
        var q := Advance(particles[i], target, centerX, centerY, jitters[i]);
        particles[i] := q;
        sprites := sprites + [Look(q)];
      }
      assert particles[..] == after;
    }
  }
}
