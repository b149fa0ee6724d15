/** Per-particle state and the per-tick rules that move one particle.
    Every random draw of the animation is an input here: a draw is a real in
    [0, 1), and the caller supplies it. */
module Particles {
  import opened Catalog

  /** One simulated dot. `color` is an index into `Palette`. */
  datatype Particle = Particle(
    x: real, y: real,
    targetX: real, targetY: real,
    originalX: real, originalY: real,
    vx: real, vy: real,
    color: nat,
    size: real,
    isForming: bool,
    formationProgress: real,
    connectionStrength: real,
    pulsePhase: real)

  const ParticleCount: nat := 120

  const Palette: seq<string> := ["#3b82f6", "#06b6d4", "#8b5cf6", "#10b981", "#f59e0b", "#ef4444", "#ffffff"]

  // Tuning constants of the motion rules.
  const FormingEase: real := 0.025
  const ProgressRise: real := 0.02
  const ProgressFall: real := 0.015
  const BounceFactor: real := -0.8
  const WanderPull: real := 0.002
  const RetargetChance: real := 0.008
  const PulseStep: real := 0.04
  /** A forming particle stops easing once it is within 3 pixels: 3 * 3. */
  const SettleDistanceSq: real := 9.0
  /** A free particle feels its target only beyond 5 pixels: 5 * 5. */
  const WanderDistanceSq: real := 25.0

  /** A value of `Math.random()`. */
  predicate IsDraw(r: real) { 0.0 <= r < 1.0 }

  /** Two draws, scaled by the canvas size to pick a random point. */
  datatype Draw2 = Draw2(u: real, v: real)

  predicate IsDraw2(d: Draw2) { IsDraw(d.u) && IsDraw(d.v) }

  /** The draws one free particle consumes in one tick: the retarget coin and the new target. */
  datatype Move = Move(coin: real, target: Draw2)

  /** The draws that create one particle. `phase` is the initial pulse phase itself,
      a draw already scaled by two pi (pi is irrational and stays outside the model). */
  datatype Seed = Seed(x: real, y: real, tx: real, ty: real, ox: real, oy: real,
                       vx: real, vy: real, color: real, size: real, phase: real)

  predicate SeedValid(s: Seed)
  {
    && IsDraw(s.x) && IsDraw(s.y) && IsDraw(s.tx) && IsDraw(s.ty) && IsDraw(s.ox) && IsDraw(s.oy)
    && IsDraw(s.vx) && IsDraw(s.vy) && IsDraw(s.color) && IsDraw(s.size) && 0.0 <= s.phase
  }

  predicate IsProgress(r: real) { 0.0 <= r <= 1.0 }

  function Min(a: real, b: real): real { if a <= b then a else b }

  function Max(a: real, b: real): real { if a >= b then a else b }

  /** `Math.max(0, Math.min(hi, v))`. */
  function Clamp(v: real, hi: real): real { Max(0.0, Min(hi, v)) }

  /** `Math.min(1, s + d)`. */
  function Raise(s: real, d: real): real { Min(1.0, s + d) }

  /** `Math.max(0, s - d)`. */
  function Lower(s: real, d: real): real { Max(0.0, s - d) }

  /** `Lower` applied `k` times. */
  function LowerN(s: real, d: real, k: nat): real
  {
    if k == 0 then s else Lower(LowerN(s, d, k - 1), d)
  }

  /** A normalised coordinate or a draw scaled by a canvas dimension: a value in
      [0, 1] lands on the canvas. */
  function Scale(u: real, w: nat): (r: real)
    ensures 0.0 <= u <= 1.0 ==> 0.0 <= r <= w as real
  {
    var wr := w as real;
    if 0.0 <= u <= 1.0 then
      NonNegativeProduct(u, wr);
      NonNegativeProduct(1.0 - u, wr);
      u * wr
    else u * wr
  }

  lemma NonNegativeProduct(a: real, b: real)
    requires 0.0 <= a && 0.0 <= b
    ensures 0.0 <= a * b
  {
  }

  lemma PositiveProduct(a: real, b: real)
    requires 0.0 < a && 0.0 < b
    ensures 0.0 < a * b
  {
  }

  /** A new particle: position and target uniform on the canvas, velocity
      components in [-0.2, 0.2), a palette colour, a size in [1, 3.5), free, unsettled. */
  function Spawn(s: Seed, w: nat, h: nat): (p: Particle)
    requires SeedValid(s)
    ensures 0.0 <= p.x <= w as real && 0.0 <= p.y <= h as real
    ensures 0.0 <= p.targetX <= w as real && 0.0 <= p.targetY <= h as real
    ensures -0.2 <= p.vx < 0.2 && -0.2 <= p.vy < 0.2
    ensures p.color < |Palette|
    ensures 1.0 <= p.size < 3.5
    ensures !p.isForming && p.formationProgress == 0.0 && p.connectionStrength == 0.0
  {
    var c := (s.color * (|Palette| as real)).Floor;
    Particle(
      Scale(s.x, w), Scale(s.y, h),
      Scale(s.tx, w), Scale(s.ty, h),
      Scale(s.ox, w), Scale(s.oy, h),
      (s.vx - 0.5) * 0.4, (s.vy - 0.5) * 0.4,
      c as nat,
      s.size * 2.5 + 1.0,
      false, 0.0, 0.0,
      s.phase)
  }

  /** A particle taken into formation slot `s` on a `w` by `h` canvas. */
  function Assign(p: Particle, s: Slot, w: nat, h: nat): (q: Particle)
    ensures q.isForming && q.connectionStrength == 1.0
    ensures q.targetX == s.x * w as real && q.targetY == s.y * h as real
    ensures 0.0 <= s.x <= 1.0 && 0.0 <= s.y <= 1.0 ==>
      0.0 <= q.targetX <= w as real && 0.0 <= q.targetY <= h as real
    ensures q.x == p.x && q.y == p.y && q.formationProgress == p.formationProgress
  {
    p.(targetX := Scale(s.x, w), targetY := Scale(s.y, h),
       isForming := true, connectionStrength := 1.0)
  }

  /** A particle set free to wander towards the random point `r`. */
  function Release(p: Particle, r: Draw2, w: nat, h: nat): (q: Particle)
    ensures !q.isForming && q.connectionStrength == 0.0
    ensures q.targetX == r.u * w as real && q.targetY == r.v * h as real
    ensures IsDraw2(r) ==> 0.0 <= q.targetX <= w as real && 0.0 <= q.targetY <= h as real
    ensures q.x == p.x && q.y == p.y && q.formationProgress == p.formationProgress
  {
    p.(isForming := false,
       targetX := Scale(r.u, w), targetY := Scale(r.v, h),
       connectionStrength := 0.0)
  }

  /** What rebuilding the formation `slots` does to particle `i`. */
  function Reassign(p: Particle, i: nat, slots: seq<Slot>, r: Draw2, w: nat, h: nat): (q: Particle)
    ensures q.isForming <==> i < |slots|
    ensures q.connectionStrength == (if i < |slots| then 1.0 else 0.0)
    ensures q.x == p.x && q.y == p.y && q.vx == p.vx && q.vy == p.vy
    ensures q.formationProgress == p.formationProgress && q.pulsePhase == p.pulsePhase
    ensures q.color == p.color && q.size == p.size
    ensures q.originalX == p.originalX && q.originalY == p.originalY
    ensures i < |slots| ==> q.targetX == slots[i].x * w as real && q.targetY == slots[i].y * h as real
    ensures i >= |slots| ==> q.targetX == r.u * w as real && q.targetY == r.v * h as real
    ensures i < |slots| && SlotWellFormed(slots[i], |slots|) ==>
      0.0 <= q.targetX <= w as real && 0.0 <= q.targetY <= h as real
    ensures i >= |slots| && IsDraw2(r) ==>
      0.0 <= q.targetX <= w as real && 0.0 <= q.targetY <= h as real
  {
    if i < |slots| then Assign(p, slots[i], w, h) else Release(p, r, w, h)
  }

  /** Re-assigning the same formation gives every slot particle the same target,
      whatever the first assignment did. */
  lemma ReassignIdempotent(p: Particle, i: nat, slots: seq<Slot>, r1: Draw2, r2: Draw2, w: nat, h: nat)
    requires i < |slots|
    ensures Reassign(Reassign(p, i, slots, r1, w, h), i, slots, r2, w, h) == Reassign(p, i, slots, r1, w, h)
  {
  }

  /** Forming mode: move 2.5% of the remaining way and settle a little more. */
  function Ease(p: Particle, dx: real, dy: real): (q: Particle)
    ensures dx == p.targetX - p.x && dy == p.targetY - p.y ==>
      q.targetX - q.x == 0.975 * dx && q.targetY - q.y == 0.975 * dy
    ensures IsProgress(p.formationProgress) ==> IsProgress(q.formationProgress)
    ensures q.formationProgress >= p.formationProgress || q.formationProgress == 1.0
    ensures q.vx == p.vx && q.vy == p.vy && q.targetX == p.targetX && q.targetY == p.targetY
  {
    p.(x := p.x + dx * FormingEase, y := p.y + dy * FormingEase,
       formationProgress := Raise(p.formationProgress, ProgressRise))
  }

  /** Free mode, first part: integrate the velocity and unsettle a little. */
  function Integrate(p: Particle): (q: Particle)
    ensures q.x - p.x == p.vx && q.y - p.y == p.vy
    ensures IsProgress(p.formationProgress) ==> IsProgress(q.formationProgress)
    ensures q.formationProgress <= p.formationProgress || q.formationProgress == 0.0
    ensures q.vx == p.vx && q.vy == p.vy && q.targetX == p.targetX && q.targetY == p.targetY
  {
    p.(x := p.x + p.vx, y := p.y + p.vy,
       formationProgress := Lower(p.formationProgress, ProgressFall))
  }

  /** Free mode, boundary handling: a coordinate outside the canvas is clamped
      back onto it and its velocity component is reversed and damped. */
  function Bounce(p: Particle, w: nat, h: nat): (q: Particle)
    ensures 0.0 <= q.x <= w as real && 0.0 <= q.y <= h as real
    ensures q.vx == (if p.x < 0.0 || p.x > w as real then BounceFactor * p.vx else p.vx)
    ensures q.vy == (if p.y < 0.0 || p.y > h as real then BounceFactor * p.vy else p.vy)
    ensures 0.0 <= p.x <= w as real ==> q.x == p.x
    ensures 0.0 <= p.y <= h as real ==> q.y == p.y
    ensures q.(x := p.x, y := p.y, vx := p.vx, vy := p.vy) == p
  {
    var p1 := if p.x < 0.0 || p.x > w as real
              then p.(vx := p.vx * BounceFactor, x := Clamp(p.x, w as real)) else p;
    if p1.y < 0.0 || p1.y > h as real
    then p1.(vy := p1.vy * BounceFactor, y := Clamp(p1.y, h as real)) else p1
  }

  /** Free mode, weak pull: uses the displacement measured before the particle moved. */
  function Attract(p: Particle, dx: real, dy: real, d2: real): (q: Particle)
    ensures d2 > WanderDistanceSq && dx == p.targetX - p.x && dy == p.targetY - p.y ==>
      q.targetX - q.x == 0.998 * dx && q.targetY - q.y == 0.998 * dy
    ensures d2 <= WanderDistanceSq ==> q == p
    ensures q.vx == p.vx && q.vy == p.vy && q.formationProgress == p.formationProgress
  {
    if d2 > WanderDistanceSq then p.(x := p.x + dx * WanderPull, y := p.y + dy * WanderPull) else p
  }

  /** Free mode, occasional new target. */
  function Retarget(p: Particle, w: nat, h: nat, m: Move): (q: Particle)
    ensures m.coin >= RetargetChance ==> q == p
    ensures m.coin < RetargetChance && IsDraw2(m.target) ==>
      0.0 <= q.targetX <= w as real && 0.0 <= q.targetY <= h as real
    ensures q.x == p.x && q.y == p.y && q.vx == p.vx && q.vy == p.vy
  {
    if m.coin < RetargetChance
    then p.(targetX := Scale(m.target.u, w), targetY := Scale(m.target.v, h)) else p
  }

  /** One tick of one particle on a `w` by `h` canvas, with the draws `m`. */
  function Step(p: Particle, w: nat, h: nat, m: Move): (q: Particle)
    ensures q.isForming == p.isForming && q.connectionStrength == p.connectionStrength
    ensures q.color == p.color && q.size == p.size
    ensures q.originalX == p.originalX && q.originalY == p.originalY
    ensures q.pulsePhase == p.pulsePhase + PulseStep
    ensures IsProgress(p.formationProgress) ==> IsProgress(q.formationProgress)
    ensures p.isForming ==>
      q.vx == p.vx && q.vy == p.vy && q.targetX == p.targetX && q.targetY == p.targetY
  {
    var dx := p.targetX - p.x;
    var dy := p.targetY - p.y;
    var d2 := dx * dx + dy * dy;
    var moved :=
      if p.isForming && d2 > SettleDistanceSq then Ease(p, dx, dy)
      else if !p.isForming then Retarget(Attract(Bounce(Integrate(p), w, h), dx, dy, d2), w, h, m)
      else p;
    moved.(pulsePhase := moved.pulsePhase + PulseStep)
  }

  /** A forming particle further than 3 pixels from its target closes 2.5% of the gap:
      the remaining displacement is scaled by exactly 0.975, and it settles by 0.02,
      capped at 1. Within 3 pixels it stays where it is. */
  lemma StepForming(p: Particle, w: nat, h: nat, m: Move)
    requires p.isForming
    ensures var q := Step(p, w, h, m);
      var dx, dy := p.targetX - p.x, p.targetY - p.y;
      if dx * dx + dy * dy > SettleDistanceSq then
        && q.targetX - q.x == 0.975 * dx && q.targetY - q.y == 0.975 * dy
        && q.formationProgress == Min(1.0, p.formationProgress + ProgressRise)
      else
        q.x == p.x && q.y == p.y && q.formationProgress == p.formationProgress
  {
  }

  /** A free particle unsettles by 0.015 (floored at 0), bounces off the canvas edge
      its velocity carries it past, is pulled by 0.2% of the displacement measured
      before it moved when that exceeds 5 pixels, and takes the drawn target exactly
      when the coin is below 0.008. */
  lemma StepFree(p: Particle, w: nat, h: nat, m: Move)
    requires !p.isForming
    ensures Step(p, w, h, m).formationProgress == Max(0.0, p.formationProgress - ProgressFall)
    ensures Step(p, w, h, m).vx ==
      (if p.x + p.vx < 0.0 || p.x + p.vx > w as real then BounceFactor * p.vx else p.vx)
    ensures Step(p, w, h, m).vy ==
      (if p.y + p.vy < 0.0 || p.y + p.vy > h as real then BounceFactor * p.vy else p.vy)
    ensures Step(p, w, h, m).x == Bounce(Integrate(p), w, h).x + (if Pulled(p) then (p.targetX - p.x) * WanderPull else 0.0)
    ensures Step(p, w, h, m).y == Bounce(Integrate(p), w, h).y + (if Pulled(p) then (p.targetY - p.y) * WanderPull else 0.0)
    ensures m.coin < RetargetChance ==>
      Step(p, w, h, m).targetX == Scale(m.target.u, w) && Step(p, w, h, m).targetY == Scale(m.target.v, h)
    ensures m.coin >= RetargetChance ==>
      Step(p, w, h, m).targetX == p.targetX && Step(p, w, h, m).targetY == p.targetY
  {
  }

  /** A free particle is pulled when it is more than 5 pixels from its target before it moves. */
  predicate Pulled(p: Particle)
  {
    var dx, dy := p.targetX - p.x, p.targetY - p.y;
    dx * dx + dy * dy > WanderDistanceSq
  }

  /** The weak pull comes after the boundary step and uses the displacement measured
      before the move, so a free particle can end a tick just outside the canvas: half a
      pixel from the left edge, moving left at 1 pixel per tick towards a target on that
      edge, it is clamped to 0 and then pulled to -0.001. */
  lemma AttractionCanLeaveCanvas(p: Particle, m: Move)
    requires !p.isForming && p.x == 0.5 && p.vx == -1.0 && p.targetX == 0.0
    requires p.y == 50.0 && p.vy == 0.0 && p.targetY == 60.0
    ensures Step(p, 100, 100, m).x == -0.001 < 0.0
  {
  }

  /** Repeated floored decrements subtract linearly until they reach 0. */
  lemma {:induction false} LowerNClosedForm(s: real, d: real, k: nat)
    requires d >= 0.0
    ensures LowerN(s, d, k) == (if k == 0 then s else Max(0.0, s - (k as real) * d))
  {
    if k > 1 {
      LowerNClosedForm(s, d, k - 1);
    }
  }

  /** A free particle is fully unsettled after 67 ticks from any progress, and not sooner from 1. */
  lemma UnsettleWithin(s: real)
    requires IsProgress(s)
    ensures LowerN(s, ProgressFall, 67) == 0.0
    ensures LowerN(1.0, ProgressFall, 66) > 0.0
  {
    LowerNClosedForm(s, ProgressFall, 67);
    LowerNClosedForm(1.0, ProgressFall, 66);
  }

  /** `sqrt` returns the non-negative square root of every non-negative real. */
  ghost predicate IsSqrt(sqrt: real -> real)
  {
    forall r :: 0.0 <= r ==> 0.0 <= sqrt(r) && sqrt(r) * sqrt(r) == r
  }

  /** A distance compares with a non-negative threshold as the squared distance
      compares with the squared threshold, so `distance > 3` is `dx*dx + dy*dy > 9`
      and `distance > 5` is `dx*dx + dy*dy > 25`. */
  lemma DistanceThreshold(sqrt: real -> real, d2: real, t: real)
    requires IsSqrt(sqrt) && 0.0 <= d2 && 0.0 <= t
    ensures sqrt(d2) > t <==> d2 > t * t
  {
    var s := sqrt(d2);
    assert 0.0 <= s && s * s == d2;
    assert s * s - t * t == (s - t) * (s + t);
    if s > t {
      PositiveProduct(s - t, s + t);
    } else {
      NonNegativeProduct(t - s, s + t);
    }
  }
}
