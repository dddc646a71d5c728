/**
 * The kinematic 2D collision resolver (CharacterController2D).
 *
 * A `Move` call scales the requested velocity by the frame time, clips the
 * horizontal displacement against rays cast from the leading side of the
 * collider box (inset by the skin width), lets the lowest horizontal ray
 * classify a contact as a wall or a walkable slope, clips the vertical
 * displacement while deriving the grounded flag, translates the body and
 * returns the realised velocity.
 *
 * The engine's ray cast, the angle between a hit normal and "up" and the
 * tangent are parameters (`Physics`); numbers are reals.
 */
module CharacterControl {
  import opened Wrappers
  import opened Geometry

  /** An axis-aligned box in world space (the z extent plays no part). */
  datatype Box = Box(min: Vec2, max: Vec2)

  /** A ray query: origin, unit direction and maximal distance. */
  datatype Ray = Ray(origin: Vec2, direction: Vec2, distance: real)

  /** What a ray query reports on contact. */
  datatype RayHit = RayHit(point: Vec2, normal: Vec2)

  /**
   * Engine services: `raycast` is Physics2D.Raycast against the platform
   * mask, `angleToUp` is Vector2.Angle(normal, Vector2.up) in degrees and
   * `tanDegrees` is Mathf.Tan of an angle given in degrees.
   */
  datatype Physics = Physics(raycast: Ray -> Option<RayHit>, angleToUp: Vec2 -> real, tanDegrees: real -> real)

  /** The serialized settings of the controller. */
  datatype Config = Config(skinWidth: real, slopeLimit: real, horizontalRays: nat, verticalRays: nat)

  /** The inspector ranges of the serialized settings. */
  predicate ConfigInRange(c: Config)
  {
    && 0.001 <= c.skinWidth <= 0.3
    && 0.0 <= c.slopeLimit <= 90.0
    && 2 <= c.horizontalRays <= 20
    && 2 <= c.verticalRays <= 20
  }

  /** Below this upward displacement the body is taken not to be jumping. */
  const JumpThreshold: real := 0.002

  /** Distance between neighbouring horizontal and vertical rays, fixed in Start. */
  datatype RayLayout = RayLayout(horizontalSpacing: real, verticalSpacing: real)

  /**
   * The displacement being clipped, the two output flags and the rays cast
   * so far during one Move call.
   */
  datatype Resolution = Resolution(delta: Vec2, grounded: bool, upSlope: bool, casts: seq<Ray>)

  /** Bounds.Expand(-2 * skin): the size shrinks by twice the skin width, so each side moves in by one skin width. */
  function Shrink(b: Box, skin: real): (s: Box)
    ensures s.max.x - s.min.x == (b.max.x - b.min.x) - 2.0 * skin
    ensures s.max.y - s.min.y == (b.max.y - b.min.y) - 2.0 * skin
  {
    Box(Vec2(b.min.x + skin, b.min.y + skin), Vec2(b.max.x - skin, b.max.y - skin))
  }

  /**
   * Ray spacing computed in Start from the collider's world bounds size and
   * the transform's local scale (the size is multiplied by the scale again).
   */
  function RaySpacing(c: Config, size: Vec2, scale: Vec2): (l: RayLayout)
    requires ConfigInRange(c)
    ensures ((c.horizontalRays - 1) as real) * l.horizontalSpacing == size.y * Abs(scale.y) - 2.0 * c.skinWidth
    ensures ((c.verticalRays - 1) as real) * l.verticalSpacing == size.x * Abs(scale.x) - 2.0 * c.skinWidth
  {
    DivideThenMultiply(size.y * Abs(scale.y) - 2.0 * c.skinWidth, (c.horizontalRays - 1) as real);
    DivideThenMultiply(size.x * Abs(scale.x) - 2.0 * c.skinWidth, (c.verticalRays - 1) as real);
    RayLayout((size.y * Abs(scale.y) - 2.0 * c.skinWidth) / ((c.horizontalRays - 1) as real),
              (size.x * Abs(scale.x) - 2.0 * c.skinWidth) / ((c.verticalRays - 1) as real))
  }

  /** Horizontal ray `i` for a pass whose requested displacement is `dx0`. */
  function HorizontalRay(c: Config, shrunk: Box, spacing: real, dx0: real, i: nat): Ray
  {
    var right := dx0 > 0.0;
    Ray(Vec2(if right then shrunk.max.x else shrunk.min.x, shrunk.min.y + (i as real) * spacing),
        Vec2(if right then 1.0 else -1.0, 0.0),
        Abs(dx0) + c.skinWidth)
  }

  /** Vertical ray `i` for a pass whose requested displacement is `dy0`. */
  function VerticalRay(c: Config, shrunk: Box, spacing: real, dy0: real, up: bool, i: nat): Ray
  {
    Ray(Vec2(shrunk.min.x + (i as real) * spacing, if up then shrunk.max.y else shrunk.min.y),
        Vec2(0.0, if up then 1.0 else -1.0),
        Abs(dy0) + c.skinWidth)
  }

  /** The displacement a horizontal hit allows: up to the hit point, less the skin on the travel side. */
  function HorizontalClip(c: Config, ray: Ray, hit: RayHit): real
  {
    var d := hit.point.x - ray.origin.x;
    if ray.direction.x > 0.0 then d - c.skinWidth else d + c.skinWidth
  }

  /** The displacement a vertical hit allows. */
  function VerticalClip(c: Config, ray: Ray, hit: RayHit): real
  {
    var d := hit.point.y - ray.origin.y;
    if ray.direction.y > 0.0 then d - c.skinWidth else d + c.skinWidth
  }

  /**
   * The slope handler: a contact at least as steep as the slope limit is a
   * wall and stops the horizontal motion; a walkable slope met without
   * jump intent turns the horizontal motion into a climb.
   */
  function SlopeStep(c: Config, r: Resolution, angle: real, tanDegrees: real -> real): (s: Resolution)
    ensures s.casts == r.casts
    ensures angle >= c.slopeLimit ==>
      s.delta == Vec2(0.0, r.delta.y) && s.grounded == r.grounded && s.upSlope == r.upSlope
    ensures angle < c.slopeLimit && r.delta.y < JumpThreshold ==>
      s.delta.x == r.delta.x && s.delta.y >= 0.0 && Abs(s.delta.y) == Abs(tanDegrees(angle)) * Abs(r.delta.x)
      && s.grounded && s.upSlope
    ensures angle < c.slopeLimit && r.delta.y >= JumpThreshold ==> s == r
  {
    if angle >= c.slopeLimit then
      r.(delta := Vec2(0.0, r.delta.y))
    else if r.delta.y < JumpThreshold then
      r.(delta := Vec2(r.delta.x, Abs(tanDegrees(angle) * r.delta.x)), upSlope := true, grounded := true)
    else
      r
  }

  /**
   * Horizontal rays `i` and up, cast in order. A hit on ray 0 hands over to
   * the slope handler and ends the pass; a hit on a higher ray replaces the
   * displacement when its clip is strictly shorter.
   */
  function HorizontalScan(c: Config, shrunk: Box, spacing: real, phys: Physics, dx0: real, r: Resolution, i: nat): Resolution
    decreases c.horizontalRays - i
  {
    if i >= c.horizontalRays then r
    else
      var ray := HorizontalRay(c, shrunk, spacing, dx0, i);
      var r1 := r.(casts := r.casts + [ray]);
      match phys.raycast(ray)
      case None => HorizontalScan(c, shrunk, spacing, phys, dx0, r1, i + 1)
      case Some(hit) =>
        if i == 0 then SlopeStep(c, r1, phys.angleToUp(hit.normal), phys.tanDegrees)
        else
          var t := HorizontalClip(c, ray, hit);
          var r2 := if Abs(t) < Abs(r1.delta.x) then r1.(delta := Vec2(t, r1.delta.y)) else r1;
          HorizontalScan(c, shrunk, spacing, phys, dx0, r2, i + 1)
  }

  /** The horizontal pass runs only for a non-zero horizontal displacement. */
  function HorizontalPass(c: Config, shrunk: Box, spacing: real, phys: Physics, r: Resolution): (s: Resolution)
    ensures r.delta.x == 0.0 ==> s == r
  {
    if r.delta.x != 0.0 then HorizontalScan(c, shrunk, spacing, phys, r.delta.x, r, 0) else r
  }

  /**
   * Vertical rays `i` and up. Every hit grounds the body; unless a slope
   * climb is under way, the first hit always sets the vertical displacement
   * and later hits replace it when strictly shorter.
   */
  function VerticalScan(c: Config, shrunk: Box, spacing: real, phys: Physics, dy0: real, up: bool, first: bool, r: Resolution, i: nat): Resolution
    decreases c.verticalRays - i
  {
    if i >= c.verticalRays then r
    else
      var ray := VerticalRay(c, shrunk, spacing, dy0, up, i);
      var r1 := r.(casts := r.casts + [ray]);
      match phys.raycast(ray)
      case None => VerticalScan(c, shrunk, spacing, phys, dy0, up, first, r1, i + 1)
      case Some(hit) =>
        var t := VerticalClip(c, ray, hit);
        var r2 := if !r1.upSlope && (Abs(t) < Abs(r1.delta.y) || first) then r1.(delta := Vec2(r1.delta.x, t)) else r1;
        VerticalScan(c, shrunk, spacing, phys, dy0, up, false, r2.(grounded := true), i + 1)
  }

  /** The vertical pass runs only for a non-zero vertical displacement; while climbing, its rays point down. */
  function VerticalPass(c: Config, shrunk: Box, spacing: real, phys: Physics, r: Resolution): (s: Resolution)
    ensures r.delta.y == 0.0 ==> s == r
  {
    if r.delta.y != 0.0 then
      VerticalScan(c, shrunk, spacing, phys, r.delta.y, r.delta.y > 0.0 && !r.upSlope, true, r, 0)
    else r
  }

  /** One whole Move call on the collider bounds `bounds`: flags cleared, horizontal pass, then vertical pass. */
  function Resolve(c: Config, bounds: Box, layout: RayLayout, phys: Physics, dx: real, dy: real, dt: real): (r: Resolution)
    ensures dx * dt == 0.0 && dy * dt == 0.0 ==> r == Resolution(Zero2, false, false, [])
  {
    var shrunk := Shrink(bounds, c.skinWidth);
    var start := Resolution(Vec2(dx * dt, dy * dt), false, false, []);
    VerticalPass(c, shrunk, layout.verticalSpacing, phys,
                 HorizontalPass(c, shrunk, layout.horizontalSpacing, phys, start))
  }

  /** The velocity Move returns for a realised displacement. */
  function RealisedVelocity(delta: Vec2, dt: real): (v: Vec2)
    ensures dt > 0.0 ==> v.x * dt == delta.x && v.y * dt == delta.y
    ensures dt <= 0.0 ==> v == Zero2
  {
    if dt > 0.0 then Vec2(delta.x / dt, delta.y / dt) else Zero2
  }


  /** Some ray of `casts` reported a contact. */
  ghost predicate SomeCastHit(phys: Physics, casts: seq<Ray>)
  {
    exists k :: 0 <= k < |casts| && phys.raycast(casts[k]).Some?
  }

  /** Horizontal ray `j` of a pass reported a contact. */
  ghost predicate HorizontalHit(c: Config, shrunk: Box, spacing: real, phys: Physics, dx0: real, j: nat)
  {
    phys.raycast(HorizontalRay(c, shrunk, spacing, dx0, j)).Some?
  }

  /** The clip of horizontal ray `j`, which must have hit. */
  ghost function HorizontalHitClip(c: Config, shrunk: Box, spacing: real, phys: Physics, dx0: real, j: nat): real
    requires HorizontalHit(c, shrunk, spacing, phys, dx0, j)
  {
    var ray := HorizontalRay(c, shrunk, spacing, dx0, j);
    HorizontalClip(c, ray, phys.raycast(ray).value)
  }

  /** Vertical ray `j` of a pass reported a contact. */
  ghost predicate VerticalHit(c: Config, shrunk: Box, spacing: real, phys: Physics, dy0: real, up: bool, j: nat)
  {
    phys.raycast(VerticalRay(c, shrunk, spacing, dy0, up, j)).Some?
  }

  /** The clip of vertical ray `j`, which must have hit. */
  ghost function VerticalHitClip(c: Config, shrunk: Box, spacing: real, phys: Physics, dy0: real, up: bool, j: nat): real
    requires VerticalHit(c, shrunk, spacing, phys, dy0, up, j)
  {
    var ray := VerticalRay(c, shrunk, spacing, dy0, up, j);
    VerticalClip(c, ray, phys.raycast(ray).value)
  }

  /**
   * Horizontal rays 1 and up: the flags and the vertical displacement stay,
   * the displacement is the request or the clip of a hit ray, and it is no
   * longer than the request nor than the clip of any ray that hit.
   */
  lemma {:induction false} HorizontalScanClips(c: Config, shrunk: Box, spacing: real, phys: Physics, dx0: real, r: Resolution, i: nat)
    requires i >= 1
    ensures var s := HorizontalScan(c, shrunk, spacing, phys, dx0, r, i);
      && s.grounded == r.grounded && s.upSlope == r.upSlope && s.delta.y == r.delta.y
      && Abs(s.delta.x) <= Abs(r.delta.x)
      && (forall j :: i <= j < c.horizontalRays && HorizontalHit(c, shrunk, spacing, phys, dx0, j) ==>
            Abs(s.delta.x) <= Abs(HorizontalHitClip(c, shrunk, spacing, phys, dx0, j)))
      && (s.delta.x == r.delta.x ||
          exists j :: i <= j < c.horizontalRays && HorizontalHit(c, shrunk, spacing, phys, dx0, j) &&
            s.delta.x == HorizontalHitClip(c, shrunk, spacing, phys, dx0, j))
    decreases c.horizontalRays - i
  {
    if i < c.horizontalRays {
      var ray := HorizontalRay(c, shrunk, spacing, dx0, i);
      var r1 := r.(casts := r.casts + [ray]);
      match phys.raycast(ray)
      case None =>
        HorizontalScanClips(c, shrunk, spacing, phys, dx0, r1, i + 1);
      case Some(hit) =>
        var t := HorizontalClip(c, ray, hit);
        var r2 := if Abs(t) < Abs(r1.delta.x) then r1.(delta := Vec2(t, r1.delta.y)) else r1;
        HorizontalScanClips(c, shrunk, spacing, phys, dx0, r2, i + 1);
        assert HorizontalHit(c, shrunk, spacing, phys, dx0, i);
        assert HorizontalHitClip(c, shrunk, spacing, phys, dx0, i) == t;
    }
  }

  /**
   * The horizontal pass never lengthens the horizontal displacement and
   * never changes the vertical one except through the slope handler. When
   * the lowest ray misses, the result is no longer than the clip of any
   * higher ray that hit.
   */
  lemma HorizontalPassNeverLengthens(c: Config, shrunk: Box, spacing: real, phys: Physics, r: Resolution)
    ensures var s := HorizontalPass(c, shrunk, spacing, phys, r);
      && Abs(s.delta.x) <= Abs(r.delta.x)
      && (r.delta.x != 0.0 && !HorizontalHit(c, shrunk, spacing, phys, r.delta.x, 0) ==>
            && s.delta.y == r.delta.y && s.grounded == r.grounded && s.upSlope == r.upSlope
            && forall j :: 1 <= j < c.horizontalRays && HorizontalHit(c, shrunk, spacing, phys, r.delta.x, j) ==>
                 Abs(s.delta.x) <= Abs(HorizontalHitClip(c, shrunk, spacing, phys, r.delta.x, j)))
  {
    if r.delta.x != 0.0 && c.horizontalRays > 0 {
      var ray := HorizontalRay(c, shrunk, spacing, r.delta.x, 0);
      var r1 := r.(casts := r.casts + [ray]);
      if phys.raycast(ray).None? {
        HorizontalScanClips(c, shrunk, spacing, phys, r.delta.x, r1, 1);
      }
    }
  }

  /**
   * A hit on the lowest horizontal ray ends the pass at once: exactly that
   * one ray is cast and the slope handler decides the outcome.
   */
  lemma LowestRayHitShortCircuits(c: Config, shrunk: Box, spacing: real, phys: Physics, r: Resolution)
    requires c.horizontalRays >= 2
    requires r.delta.x != 0.0 && HorizontalHit(c, shrunk, spacing, phys, r.delta.x, 0)
    ensures var ray := HorizontalRay(c, shrunk, spacing, r.delta.x, 0);
      HorizontalPass(c, shrunk, spacing, phys, r)
        == SlopeStep(c, r.(casts := r.casts + [ray]), phys.angleToUp(phys.raycast(ray).value.normal), phys.tanDegrees)
  {
  }

  /** Horizontal rays from `i` on: the flags change only through a hit on ray 0. */
  lemma {:induction false} HorizontalScanFlags(c: Config, shrunk: Box, spacing: real, phys: Physics, dx0: real, r: Resolution, i: nat)
    ensures var s := HorizontalScan(c, shrunk, spacing, phys, dx0, r, i);
      && r.casts <= s.casts
      && (s.grounded != r.grounded || s.upSlope != r.upSlope ==>
            && i == 0 && c.horizontalRays > 0 && |s.casts| == |r.casts| + 1
            && var ray := HorizontalRay(c, shrunk, spacing, dx0, 0);
               && s.casts[|r.casts|] == ray && phys.raycast(ray).Some?
               && phys.angleToUp(phys.raycast(ray).value.normal) < c.slopeLimit
               && r.delta.y < JumpThreshold && s.grounded && s.upSlope)
    decreases c.horizontalRays - i
  {
    if i < c.horizontalRays {
      var ray := HorizontalRay(c, shrunk, spacing, dx0, i);
      var r1 := r.(casts := r.casts + [ray]);
      match phys.raycast(ray)
      case None =>
        HorizontalScanFlags(c, shrunk, spacing, phys, dx0, r1, i + 1);
        HorizontalScanClips(c, shrunk, spacing, phys, dx0, r1, i + 1);
      case Some(hit) =>
        if i != 0 {
          var t := HorizontalClip(c, ray, hit);
          var r2 := if Abs(t) < Abs(r1.delta.x) then r1.(delta := Vec2(t, r1.delta.y)) else r1;
          HorizontalScanFlags(c, shrunk, spacing, phys, dx0, r2, i + 1);
          HorizontalScanClips(c, shrunk, spacing, phys, dx0, r2, i + 1);
        }
    }
  }

  /**
   * Vertical rays from `i` on: the horizontal displacement and the slope
   * flag stay, every ray is cast and points the same way, and the grounded
   * flag is set exactly when the flag was already set or a ray hit.
   */
  lemma {:induction false} VerticalScanFrame(c: Config, shrunk: Box, spacing: real, phys: Physics, dy0: real, up: bool, first: bool, r: Resolution, i: nat)
    ensures var s := VerticalScan(c, shrunk, spacing, phys, dy0, up, first, r, i);
      && s.delta.x == r.delta.x && s.upSlope == r.upSlope
      && r.casts <= s.casts
      && (forall k :: |r.casts| <= k < |s.casts| ==> s.casts[k].direction == Vec2(0.0, if up then 1.0 else -1.0))
      && (s.grounded <==> r.grounded || exists j :: i <= j < c.verticalRays && VerticalHit(c, shrunk, spacing, phys, dy0, up, j))
      && (s.grounded ==> r.grounded || SomeCastHit(phys, s.casts))
      && (r.upSlope ==> s.delta == r.delta)
    decreases c.verticalRays - i
  {
    if i < c.verticalRays {
      var ray := VerticalRay(c, shrunk, spacing, dy0, up, i);
      var r1 := r.(casts := r.casts + [ray]);
      var s := VerticalScan(c, shrunk, spacing, phys, dy0, up, first, r, i);
      match phys.raycast(ray)
      case None =>
        VerticalScanFrame(c, shrunk, spacing, phys, dy0, up, first, r1, i + 1);
        if s.grounded && !r.grounded {
          assert !SomeCastHit(phys, r1.casts) ==> SomeCastHit(phys, s.casts);
          if SomeCastHit(phys, r1.casts) {
            var k :| 0 <= k < |r1.casts| && phys.raycast(r1.casts[k]).Some?;
            assert s.casts[k] == r1.casts[k];
          }
        }
      case Some(hit) =>
        var t := VerticalClip(c, ray, hit);
        var r2 := if !r1.upSlope && (Abs(t) < Abs(r1.delta.y) || first) then r1.(delta := Vec2(r1.delta.x, t)) else r1;
        VerticalScanFrame(c, shrunk, spacing, phys, dy0, up, false, r2.(grounded := true), i + 1);
        assert s.casts[|r.casts|] == ray;
        assert VerticalHit(c, shrunk, spacing, phys, dy0, up, i);
    }
  }

  /**
   * Vertical rays from `i` on, outside a slope climb: the result is no longer
   * than the clip of any ray that hit; it is the incoming displacement or the
   * clip of a ray that hit, and when this is the first hit of the pass it is
   * the clip of a ray that hit, even a longer one.
   */
  lemma {:induction false} VerticalScanClips(c: Config, shrunk: Box, spacing: real, phys: Physics, dy0: real, up: bool, first: bool, r: Resolution, i: nat)
    requires !r.upSlope
    ensures var s := VerticalScan(c, shrunk, spacing, phys, dy0, up, first, r, i);
      && (forall j :: i <= j < c.verticalRays && VerticalHit(c, shrunk, spacing, phys, dy0, up, j) ==>
            Abs(s.delta.y) <= Abs(VerticalHitClip(c, shrunk, spacing, phys, dy0, up, j)))
      && (!first ==> Abs(s.delta.y) <= Abs(r.delta.y))
      && ((!first && s.delta.y == r.delta.y) ||
          (exists j :: i <= j < c.verticalRays && VerticalHit(c, shrunk, spacing, phys, dy0, up, j) &&
             s.delta.y == VerticalHitClip(c, shrunk, spacing, phys, dy0, up, j)) ||
          (s.delta == r.delta && forall j :: i <= j < c.verticalRays ==> !VerticalHit(c, shrunk, spacing, phys, dy0, up, j)))
    decreases c.verticalRays - i
  {
    if i < c.verticalRays {
      var ray := VerticalRay(c, shrunk, spacing, dy0, up, i);
      var r1 := r.(casts := r.casts + [ray]);
      match phys.raycast(ray)
      case None =>
        VerticalScanClips(c, shrunk, spacing, phys, dy0, up, first, r1, i + 1);
      case Some(hit) =>
        var t := VerticalClip(c, ray, hit);
        var r2 := if !r1.upSlope && (Abs(t) < Abs(r1.delta.y) || first) then r1.(delta := Vec2(r1.delta.x, t)) else r1;
        VerticalScanClips(c, shrunk, spacing, phys, dy0, up, false, r2.(grounded := true), i + 1);
        assert VerticalHit(c, shrunk, spacing, phys, dy0, up, i);
        assert VerticalHitClip(c, shrunk, spacing, phys, dy0, up, i) == t;
    }
  }

  /**
   * The vertical pass outside a slope climb: when some ray hits, the body is
   * grounded and the vertical displacement becomes the clip of a ray that
   * hit, no longer than the clip of any other ray that hit (the most
   * restrictive contact wins); when no ray hits, nothing but the log changes.
   */
  lemma VerticalPassMostRestrictive(c: Config, shrunk: Box, spacing: real, phys: Physics, r: Resolution)
    requires !r.upSlope && r.delta.y != 0.0
    ensures var up := r.delta.y > 0.0;
      var s := VerticalPass(c, shrunk, spacing, phys, r);
      && s.delta.x == r.delta.x && !s.upSlope
      && if exists j :: 0 <= j < c.verticalRays && VerticalHit(c, shrunk, spacing, phys, r.delta.y, up, j) then
           && s.grounded
           && (exists j :: 0 <= j < c.verticalRays && VerticalHit(c, shrunk, spacing, phys, r.delta.y, up, j) &&
                 s.delta.y == VerticalHitClip(c, shrunk, spacing, phys, r.delta.y, up, j))
           && (forall j :: 0 <= j < c.verticalRays && VerticalHit(c, shrunk, spacing, phys, r.delta.y, up, j) ==>
                 Abs(s.delta.y) <= Abs(VerticalHitClip(c, shrunk, spacing, phys, r.delta.y, up, j)))
         else s.delta == r.delta && s.grounded == r.grounded
  {
    var up := r.delta.y > 0.0;
    VerticalScanClips(c, shrunk, spacing, phys, r.delta.y, up, true, r, 0);
    VerticalScanFrame(c, shrunk, spacing, phys, r.delta.y, up, true, r, 0);
  }

  /**
   * While climbing a slope the vertical pass casts its rays downwards and
   * leaves the displacement the slope handler produced untouched; it can
   * only set the grounded flag.
   */
  lemma VerticalPassKeepsClimb(c: Config, shrunk: Box, spacing: real, phys: Physics, r: Resolution)
    requires r.upSlope
    ensures var s := VerticalPass(c, shrunk, spacing, phys, r);
      && s.delta == r.delta && s.upSlope
      && (s.grounded <==>
            (r.grounded || (r.delta.y != 0.0 &&
              exists j :: 0 <= j < c.verticalRays && VerticalHit(c, shrunk, spacing, phys, r.delta.y, false, j))))
      && r.casts <= s.casts
      && forall k :: |r.casts| <= k < |s.casts| ==> s.casts[k].direction == Vec2(0.0, -1.0)
  {
    if r.delta.y != 0.0 {
      VerticalScanFrame(c, shrunk, spacing, phys, r.delta.y, false, true, r, 0);
    }
  }

  /**
   * After a Move, the slope flag is set only when the lowest horizontal ray
   * found a walkable slope without jump intent, and the grounded flag only
   * when some ray of this call hit: neither flag survives from an earlier call.
   */
  lemma FlagsComeFromHits(c: Config, bounds: Box, layout: RayLayout, phys: Physics, dx: real, dy: real, dt: real)
    ensures var r := Resolve(c, bounds, layout, phys, dx, dy, dt);
      var shrunk := Shrink(bounds, c.skinWidth);
      && (r.upSlope ==>
            && dx * dt != 0.0 && dy * dt < JumpThreshold && r.grounded
            && var ray := HorizontalRay(c, shrunk, layout.horizontalSpacing, dx * dt, 0);
               |r.casts| > 0 && r.casts[0] == ray && phys.raycast(ray).Some?
               && phys.angleToUp(phys.raycast(ray).value.normal) < c.slopeLimit)
      && (r.grounded ==> SomeCastHit(phys, r.casts))
  {
    var shrunk := Shrink(bounds, c.skinWidth);
    var start := Resolution(Vec2(dx * dt, dy * dt), false, false, []);
    var h := HorizontalPass(c, shrunk, layout.horizontalSpacing, phys, start);
    var v := VerticalPass(c, shrunk, layout.verticalSpacing, phys, h);
    if dx * dt != 0.0 {
      HorizontalScanFlags(c, shrunk, layout.horizontalSpacing, phys, dx * dt, start, 0);
      if h.grounded {
        assert phys.raycast(h.casts[0]).Some?;
      }
    }
    if h.delta.y != 0.0 {
      VerticalScanFrame(c, shrunk, layout.verticalSpacing, phys, h.delta.y, h.delta.y > 0.0 && !h.upSlope, true, h, 0);
    }
    if v.grounded && h.grounded {
      assert phys.raycast(h.casts[0]).Some?;
      assert v.casts[0] == h.casts[0];
    }
  }

  /** Horizontal rays from `i` on, none of which hits: only the log changes. */
  lemma {:induction false} HorizontalScanNoHit(c: Config, shrunk: Box, spacing: real, phys: Physics, dx0: real, r: Resolution, i: nat)
    requires forall ray :: phys.raycast(ray).None?
    ensures var s := HorizontalScan(c, shrunk, spacing, phys, dx0, r, i);
      s.delta == r.delta && s.grounded == r.grounded && s.upSlope == r.upSlope
    decreases c.horizontalRays - i
  {
    if i < c.horizontalRays {
      var ray := HorizontalRay(c, shrunk, spacing, dx0, i);
      HorizontalScanNoHit(c, shrunk, spacing, phys, dx0, r.(casts := r.casts + [ray]), i + 1);
    }
  }

  /** Vertical rays from `i` on, none of which hits: only the log changes. */
  lemma {:induction false} VerticalScanNoHit(c: Config, shrunk: Box, spacing: real, phys: Physics, dy0: real, up: bool, first: bool, r: Resolution, i: nat)
    requires forall ray :: phys.raycast(ray).None?
    ensures var s := VerticalScan(c, shrunk, spacing, phys, dy0, up, first, r, i);
      s.delta == r.delta && s.grounded == r.grounded && s.upSlope == r.upSlope
    decreases c.verticalRays - i
  {
    if i < c.verticalRays {
      var ray := VerticalRay(c, shrunk, spacing, dy0, up, i);
      VerticalScanNoHit(c, shrunk, spacing, phys, dy0, up, first, r.(casts := r.casts + [ray]), i + 1);
    }
  }

  /**
   * With nothing in the way, Move realises the whole requested displacement,
   * reports neither flag and, for a positive frame time, returns the
   * requested velocity.
   */
  lemma NoObstaclesMeansFreeMotion(c: Config, bounds: Box, layout: RayLayout, phys: Physics, dx: real, dy: real, dt: real)
    requires forall ray :: phys.raycast(ray).None?
    ensures var r := Resolve(c, bounds, layout, phys, dx, dy, dt);
      && r.delta == Vec2(dx * dt, dy * dt) && !r.grounded && !r.upSlope
      && (dt > 0.0 ==> RealisedVelocity(r.delta, dt) == Vec2(dx, dy))
  {
    var shrunk := Shrink(bounds, c.skinWidth);
    var start := Resolution(Vec2(dx * dt, dy * dt), false, false, []);
    HorizontalScanNoHit(c, shrunk, layout.horizontalSpacing, phys, dx * dt, start, 0);
    var h := HorizontalPass(c, shrunk, layout.horizontalSpacing, phys, start);
    VerticalScanNoHit(c, shrunk, layout.verticalSpacing, phys, h.delta.y, h.delta.y > 0.0 && !h.upSlope, true, h, 0);
    if dt > 0.0 {
      var v := RealisedVelocity(Vec2(dx * dt, dy * dt), dt);
      assert v.x * dt == dx * dt && v.y * dt == dy * dt;
    }
  }

  lemma ScaledSizeUnchangedIffUnit(size: real, k: real)
    requires size > 0.0
    ensures (size * k == size) <==> (k == 1.0)
  {
    if k > 1.0 {
      assert size * (k - 1.0) > 0.0;
    } else if k < 1.0 {
      assert size * (1.0 - k) > 0.0;
    }
  }

  lemma DivideThenMultiply(x: real, n: real)
    requires n > 0.0
    ensures n * (x / n) == x
  {
  }

  /**
   * The rays of a pass span the shrunk box exactly, the top horizontal ray
   * lying on its top edge, if and only if the vertical scale is 1 or -1:
   * Start multiplies the world bounds size by the scale a second time.
   */
  lemma TopRayOnShrunkTopIffUnitScale(c: Config, bounds: Box, scale: Vec2, dx0: real)
    requires ConfigInRange(c) && bounds.max.y > bounds.min.y
    ensures var layout := RaySpacing(c, Vec2(bounds.max.x - bounds.min.x, bounds.max.y - bounds.min.y), scale);
      var shrunk := Shrink(bounds, c.skinWidth);
      (HorizontalRay(c, shrunk, layout.horizontalSpacing, dx0, c.horizontalRays - 1).origin.y == shrunk.max.y)
        <==> (Abs(scale.y) == 1.0)
  {
    var size := bounds.max.y - bounds.min.y;
    var extent := Vec2(bounds.max.x - bounds.min.x, size);
    var spacing := RaySpacing(c, extent, scale).horizontalSpacing;
    var shrunk := Shrink(bounds, c.skinWidth);
    assert HorizontalRay(c, shrunk, spacing, dx0, c.horizontalRays - 1).origin.y
        == shrunk.min.y + ((c.horizontalRays - 1) as real) * spacing;
    TopEdge(bounds.min.y, bounds.max.y, c.skinWidth, size, Abs(scale.y), size * Abs(scale.y), ((c.horizontalRays - 1) as real) * spacing);
  }

  /** The top ray's height against the shrunk top edge, for a span computed from the scaled size. */
  lemma TopEdge(minY: real, maxY: real, skin: real, size: real, k: real, scaled: real, span: real)
    requires size == maxY - minY && size > 0.0 && scaled == size * k && span == scaled - 2.0 * skin
    ensures (minY + skin + span == maxY - skin) <==> (k == 1.0)
  {
    ScaledSizeUnchangedIffUnit(size, k);
  }

  class CharacterController2D {
    const config: Config
    /** The box collider's bounds relative to the transform position. */
    const localBounds: Box
    /** Ray spacing fixed by Start. */
    const layout: RayLayout

    /** The transform's world position. */
    var position: Vec2
    /** m_BoundsWithSkin: the collider bounds shrunk by the skin, refreshed by every Move. */
    var boundsWithSkin: Box
    var isGrounded: bool
    var isGoingUpSlope: bool
    /** The rays cast during the last Move call, in order. */
    ghost var casts: seq<Ray>

    /** The collider's world bounds at the current position. */
    function Bounds(): Box
      reads this
    {
      Box(localBounds.min.Plus(position), localBounds.max.Plus(position))
    }

    ghost function State(d: Vec2): Resolution
      reads this
    {
      Resolution(d, isGrounded, isGoingUpSlope, casts)
    }

    /** Awake and Start: the settings are fixed and the ray spacing is derived from the collider size and scale. */
    constructor (config: Config, localBounds: Box, scale: Vec2, position: Vec2)
      requires ConfigInRange(config)
      ensures this.config == config && this.localBounds == localBounds && this.position == position
      ensures layout == RaySpacing(config, Vec2(localBounds.max.x - localBounds.min.x, localBounds.max.y - localBounds.min.y), scale)
      ensures !isGrounded && !isGoingUpSlope && casts == []
    {
      this.config := config;
      this.localBounds := localBounds;
      this.position := position;
      this.layout := RaySpacing(config, Vec2(localBounds.max.x - localBounds.min.x, localBounds.max.y - localBounds.min.y), scale);
      this.boundsWithSkin := Shrink(Box(localBounds.min.Plus(position), localBounds.max.Plus(position)), config.skinWidth);
      this.isGrounded := false;
      this.isGoingUpSlope := false;
      this.casts := [];
    }

    /** Move by the velocity (deltaX, deltaY) over a frame of `deltaTime` seconds and return the realised velocity. */
    method Move(deltaX: real, deltaY: real, deltaTime: real, phys: Physics) returns (velocity: Vec2)
      modifies this
      ensures var r := Resolve(config, old(Bounds()), layout, phys, deltaX, deltaY, deltaTime);
        && position == old(position).Plus(r.delta)
        && isGrounded == r.grounded && isGoingUpSlope == r.upSlope
        && casts == r.casts
        && velocity == RealisedVelocity(r.delta, deltaTime)
      ensures boundsWithSkin == Shrink(old(Bounds()), config.skinWidth)
    {
      boundsWithSkin := Shrink(Bounds(), config.skinWidth);
      isGrounded := false;
      isGoingUpSlope := false;
      casts := [];
      var deltaMovement := Vec2(deltaX * deltaTime, deltaY * deltaTime);
      deltaMovement := HandleHorizontalMovement(deltaMovement, phys);
      deltaMovement := HandleVerticalMovement(deltaMovement, phys);
      position := position.Plus(deltaMovement);
      velocity := Zero2;
      if deltaTime > 0.0 {
        velocity := Vec2(deltaMovement.x / deltaTime, deltaMovement.y / deltaTime);
      }
    }

    method HandleHorizontalMovement(deltaMovement: Vec2, phys: Physics) returns (result: Vec2)
      modifies this`isGrounded, this`isGoingUpSlope, this`casts
      ensures State(result) == HorizontalPass(config, boundsWithSkin, layout.horizontalSpacing, phys, old(State(deltaMovement)))
    {
      result := deltaMovement;
      if result.x != 0.0 {
        var isGoingRight := result.x > 0.0;
        var rayDistance := Abs(result.x) + config.skinWidth;
        var i := 0;
        while i < config.horizontalRays
          invariant 0 <= i
          invariant isGoingRight == (deltaMovement.x > 0.0) && rayDistance == Abs(deltaMovement.x) + config.skinWidth
          invariant HorizontalScan(config, boundsWithSkin, layout.horizontalSpacing, phys, deltaMovement.x, State(result), i)
                 == HorizontalPass(config, boundsWithSkin, layout.horizontalSpacing, phys, old(State(deltaMovement)))
          decreases config.horizontalRays - i
        {
          var rayPosition := Vec2(if isGoingRight then boundsWithSkin.max.x else boundsWithSkin.min.x,
                                  boundsWithSkin.min.y + (i as real) * layout.horizontalSpacing);
          var rayDirection := Vec2(if isGoingRight then 1.0 else -1.0, 0.0);
          var ray := Ray(rayPosition, rayDirection, rayDistance);
          assert ray == HorizontalRay(config, boundsWithSkin, layout.horizontalSpacing, deltaMovement.x, i);
          casts := casts + [ray];
          var raycastHit := phys.raycast(ray);
          if raycastHit.Some? {
            if i == 0 {
              result := HandleUpwardSlope(result, phys.angleToUp(raycastHit.value.normal), phys);
              return;
            }
            var tempDeltaX := raycastHit.value.point.x - rayPosition.x;
            if isGoingRight { tempDeltaX := tempDeltaX - config.skinWidth; }
            else { tempDeltaX := tempDeltaX + config.skinWidth; }
            if Abs(tempDeltaX) < Abs(result.x) {
              result := Vec2(tempDeltaX, result.y);
            }
          }
          i := i + 1;
        }
      }
    }

    method HandleUpwardSlope(deltaMovement: Vec2, angle: real, phys: Physics) returns (result: Vec2)
      modifies this`isGrounded, this`isGoingUpSlope
      ensures State(result) == SlopeStep(config, old(State(deltaMovement)), angle, phys.tanDegrees)
    {
      result := deltaMovement;
      if angle >= config.slopeLimit {
        result := Vec2(0.0, result.y);
        return;
      }
      if result.y < JumpThreshold {
        result := Vec2(result.x, Abs(phys.tanDegrees(angle) * result.x));
        isGoingUpSlope := true;
        isGrounded := true;
      }
    }

    method HandleVerticalMovement(deltaMovement: Vec2, phys: Physics) returns (result: Vec2)
      modifies this`isGrounded, this`casts
      ensures State(result) == VerticalPass(config, boundsWithSkin, layout.verticalSpacing, phys, old(State(deltaMovement)))
    {
      result := deltaMovement;
      if result.y != 0.0 {
        var firstRaycastHit := true;
        var isGoingUp := result.y > 0.0 && !isGoingUpSlope;
        var rayDistance := Abs(result.y) + config.skinWidth;
        var i := 0;
        while i < config.verticalRays
          invariant 0 <= i
          invariant rayDistance == Abs(deltaMovement.y) + config.skinWidth
          invariant VerticalScan(config, boundsWithSkin, layout.verticalSpacing, phys, deltaMovement.y, isGoingUp, firstRaycastHit, State(result), i)
                 == VerticalPass(config, boundsWithSkin, layout.verticalSpacing, phys, old(State(deltaMovement)))
          decreases config.verticalRays - i
        {
          var rayPosition := Vec2(boundsWithSkin.min.x + (i as real) * layout.verticalSpacing,
                                  if isGoingUp then boundsWithSkin.max.y else boundsWithSkin.min.y);
          var rayDirection := Vec2(0.0, if isGoingUp then 1.0 else -1.0);
          var ray := Ray(rayPosition, rayDirection, rayDistance);
          assert ray == VerticalRay(config, boundsWithSkin, layout.verticalSpacing, deltaMovement.y, isGoingUp, i);
          casts := casts + [ray];
          var raycastHit := phys.raycast(ray);
          if raycastHit.Some? {
            if !isGoingUpSlope {
              var tempDeltaY := raycastHit.value.point.y - rayPosition.y;
              if isGoingUp { tempDeltaY := tempDeltaY - config.skinWidth; }
              else { tempDeltaY := tempDeltaY + config.skinWidth; }
              if Abs(tempDeltaY) < Abs(result.y) || firstRaycastHit {
                result := Vec2(result.x, tempDeltaY);
              }
            }
            firstRaycastHit := false;
            isGrounded := true;
          }
          i := i + 1;
        }
      }
    }
  }
}
