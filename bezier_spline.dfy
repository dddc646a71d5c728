/**
 * The cubic Bezier spline (Bezier, BezierSpline).
 *
 * A spline of `n` curves holds 3n + 1 control points: every third point is
 * an anchor shared by two neighbouring curves and the two points around it
 * are its handles. Each anchor has a control-point mode; the handle at
 * index i belongs to the mode slot (i + 1) / 3, so n curves have n + 1
 * modes and the lists satisfy points = 3 * modes - 2. A non-free mode ties
 * one handle of an anchor to the other (Mirrored reflects it through the
 * anchor). In loop mode the last anchor and its mode are kept equal to the
 * first.
 *
 * The spline's state is the value `BezierState`; the functions over it are
 * the specification the class `BezierSpline` implements step by step.
 */
module BezierSplines {
  import opened Wrappers
  import opened Geometry

  /** BezierControlPointMode */
  datatype Mode = Free | Aligned | Mirrored

  /** Bezier.GetPoint: the cubic Bezier point, with the parameter clamped to [0, 1]. */
  function BezierPoint(p0: Vec3, p1: Vec3, p2: Vec3, p3: Vec3, t: real): (r: Vec3)
    ensures t <= 0.0 ==> r == p0
    ensures t >= 1.0 ==> r == p3
  {
    var c := Clamp01(t);
    var u := 1.0 - c;
    p0.Scale(u * u * u).Plus(p1.Scale(3.0 * u * u * c)).Plus(p2.Scale(3.0 * u * c * c)).Plus(p3.Scale(c * c * c))
  }

  lemma BernsteinSum(u: real, c: real)
    requires u + c == 1.0
    ensures u * u * u + 3.0 * u * u * c + 3.0 * u * c * c + c * c * c == 1.0
  {
    assert u * u * u + 3.0 * u * u * c + 3.0 * u * c * c + c * c * c == (u + c) * (u + c) * (u + c);
  }

  /** The Bezier weights sum to one, so a curve whose four control points coincide is that single point. */
  lemma DegenerateCurveIsPoint(p: Vec3, t: real)
    ensures BezierPoint(p, p, p, p, t) == p
  {
    var c := Clamp01(t);
    var u := 1.0 - c;
    BernsteinSum(u, c);
    var a, b, d, e := u * u * u, 3.0 * u * u * c, 3.0 * u * c * c, c * c * c;
    assert a * p.x + b * p.x + d * p.x + e * p.x == (a + b + d + e) * p.x;
    assert a * p.y + b * p.y + d * p.y + e * p.y == (a + b + d + e) * p.y;
    assert a * p.z + b * p.z + d * p.z + e * p.z == (a + b + d + e) * p.z;
  }

  /** The state of a spline: its control points, the mode of every anchor and the loop flag. */
  datatype BezierState = BezierState(points: seq<Vec3>, modes: seq<Mode>, loop: bool)

  /** The mode slot a control point belongs to. */
  function ModeSlot(index: int): int
  {
    (index + 1) / 3
  }

  /**
   * The shape every operation relies on for its list accesses: no points,
   * or 3n + 1 points (n >= 1) with at least as many modes as they need.
   */
  predicate Shaped(s: BezierState)
  {
    |s.points| == 0 || (|s.points| >= 4 && |s.points| % 3 == 1 && 3 * |s.modes| >= |s.points| + 2)
  }

  /** The exact shape the spline is meant to have: points = 3 * modes - 2 (or both lists empty). */
  predicate Exact(s: BezierState)
  {
    (|s.points| == 0 && |s.modes| == 0) || (|s.modes| >= 2 && |s.points| == 3 * |s.modes| - 2)
  }

  /** In loop mode the last anchor and its mode equal the first. */
  predicate LoopClosed(s: BezierState)
  {
    s.loop && |s.points| > 0 && |s.modes| > 0 ==>
      s.points[|s.points| - 1] == s.points[0] && s.modes[|s.modes| - 1] == s.modes[0]
  }

  /** The three points EnforceMode works on: the anchor, the handle kept fixed and the one it recomputes. */
  datatype Target = Target(middle: int, fixed: int, enforced: int)

  /**
   * The point EnforceMode recomputes after point `index` changed, if any:
   * none for a free mode, for the first or last mode slot or for a slot
   * past the end of the mode list. A handle that falls outside the list
   * wraps to the other end.
   */
  function EnforceTarget(count: nat, modes: seq<Mode>, index: int): (r: Option<Target>)
    requires count % 3 == 1 && 0 <= index < count
    ensures r.Some? ==> 0 <= r.value.middle < count && 0 <= r.value.fixed < count && 0 <= r.value.enforced < count
    ensures r.Some? ==>
      (0 < ModeSlot(index) < |modes| - 1 && modes[ModeSlot(index)] != Free && r.value.middle == 3 * ModeSlot(index))
  {
    var modeIndex := ModeSlot(index);
    if modeIndex >= |modes| then None
    else if modes[modeIndex] == Free || modeIndex == 0 || modeIndex == |modes| - 1 then None
    else
      var middleIndex := modeIndex * 3;
      if index <= middleIndex then
        var fixedIndex := if middleIndex - 1 < 0 then count - 2 else middleIndex - 1;
        var enforcedIndex := if middleIndex + 1 >= count then 1 else middleIndex + 1;
        Some(Target(middleIndex, fixedIndex, enforcedIndex))
      else
        var fixedIndex := if middleIndex + 1 >= count then 1 else middleIndex + 1;
        var enforcedIndex := if middleIndex - 1 < 0 then count - 2 else middleIndex - 1;
        Some(Target(middleIndex, fixedIndex, enforcedIndex))
  }

  /**
   * EnforceMode(index). Mirrored sets the enforced handle to the fixed one
   * reflected through the anchor. Aligned normalises a freshly made zero
   * vector, so the enforced handle lands on the anchor itself.
   */
  function Enforced(s: BezierState, index: int): (r: BezierState)
    requires Shaped(s) && 0 <= index < |s.points|
    ensures r.modes == s.modes && r.loop == s.loop && |r.points| == |s.points|
    ensures EnforceTarget(|s.points|, s.modes, index).None? ==> r == s
    ensures EnforceTarget(|s.points|, s.modes, index).Some? ==>
      var tg := EnforceTarget(|s.points|, s.modes, index).value;
      && (forall j :: 0 <= j < |s.points| && j != tg.enforced ==> r.points[j] == s.points[j])
      && (s.modes[ModeSlot(index)] == Mirrored ==> r.points[tg.enforced].Plus(s.points[tg.fixed]) == s.points[tg.middle].Scale(2.0))
      && (s.modes[ModeSlot(index)] == Aligned ==> r.points[tg.enforced] == s.points[tg.middle])
  {
    match EnforceTarget(|s.points|, s.modes, index)
    case None => s
    case Some(tg) =>
      var middle := s.points[tg.middle];
      var tangent := if s.modes[ModeSlot(index)] == Mirrored then middle.Minus(s.points[tg.fixed]) else Zero3;
      s.(points := s.points[tg.enforced := middle.Plus(tangent)])
  }

  /** Under the exact shape the wrap-around fallbacks are never taken: the handles are the anchor's own neighbours, inside the list. */
  lemma EnforceTargetIsLocal(s: BezierState, index: int)
    requires Exact(s) && |s.points| > 0 && 0 <= index < |s.points|
    ensures var r := EnforceTarget(|s.points|, s.modes, index);
      r.Some? ==>
        && 2 <= r.value.middle - 1 && r.value.middle + 1 <= |s.points| - 3
        && (if index <= r.value.middle
            then r.value.fixed == r.value.middle - 1 && r.value.enforced == r.value.middle + 1
            else r.value.fixed == r.value.middle + 1 && r.value.enforced == r.value.middle - 1)
  {
    var r := EnforceTarget(|s.points|, s.modes, index);
    if r.Some? {
      var m := ModeSlot(index);
      assert 1 <= m <= |s.modes| - 2;
      assert 3 * m + 1 <= |s.points| - 3;
    }
  }

  function Right(x: real): Vec3
  {
    Vec3(x, 0.0, 0.0)
  }

  /** The lists AddCurve builds before enforcing: three points one unit apart along x after the last point (four, and a second mode, on an empty spline). */
  function Extended(s: BezierState): (r: BezierState)
    requires Shaped(s)
    ensures Shaped(r) && r.loop == s.loop
    ensures |r.points| == |s.points| + (if |s.points| == 0 then 4 else 3)
    ensures |r.modes| == |s.modes| + (if |s.points| == 0 then 2 else 1)
    ensures r.points[..|s.points|] == s.points && r.modes[..|s.modes|] == s.modes
  {
    var count := |s.points|;
    var x := if count > 0 then s.points[count - 1].x else 0.0;
    var lastMode := if count > 0 then s.modes[|s.modes| - 1] else Free;
    var pts := s.points + [Right(x + 1.0), Right(x + 2.0), Right(x + 3.0)];
    var ms := s.modes + [lastMode];
    if |pts| == 3 then BezierState(pts + [Right(x + 4.0)], ms + [lastMode], s.loop)
    else BezierState(pts, ms, s.loop)
  }

  /** The loop closing step of AddCurve: the last point and mode copy the first. */
  function ClosedOver(s: BezierState): (r: BezierState)
    requires Shaped(s) && |s.points| > 0
    ensures Shaped(r) && r.loop == s.loop && |r.points| == |s.points| && |r.modes| == |s.modes|
    ensures r.points[|r.points| - 1] == s.points[0] && r.modes[|r.modes| - 1] == s.modes[0]
  {
    s.(points := s.points[|s.points| - 1 := s.points[0]],
       modes := s.modes[|s.modes| - 1 := s.modes[0]])
  }

  /** AddCurve: append a straight curve along x after the last point, then re-enforce the old last anchor and close the loop. */
  function WithCurveAdded(s: BezierState): (r: BezierState)
    requires Shaped(s)
    ensures Shaped(r) && r.loop == s.loop
    ensures |r.points| == |s.points| + (if |s.points| == 0 then 4 else 3)
    ensures |r.modes| == |s.modes| + (if |s.points| == 0 then 2 else 1)
  {
    var grown := Extended(s);
    var added := Enforced(grown, |grown.points| - 4);
    if s.loop then Enforced(ClosedOver(added), 0) else added
  }

  /**
   * The list updates SetControlPoint makes before enforcing the mode:
   * moving an anchor drags its handles along by the same offset, and in
   * loop mode the first and last anchors move together.
   */
  function Moved(s: BezierState, index: int, point: Vec3): (r: BezierState)
    requires Shaped(s) && 0 <= index < |s.points|
    ensures r.modes == s.modes && r.loop == s.loop && |r.points| == |s.points| && r.points[index] == point
  {
    var pts := s.points;
    var count := |pts|;
    if index % 3 != 0 then s.(points := pts[index := point])
    else
      var delta := point.Minus(pts[index]);
      if s.loop then
        if index == 0 then
          var p1 := pts[1 := pts[1].Plus(delta)];
          var p2 := p1[count - 2 := p1[count - 2].Plus(delta)];
          var p3 := p2[count - 1 := point];
          s.(points := p3[index := point])
        else if index == count - 1 then
          var p1 := pts[0 := point];
          var p2 := p1[1 := p1[1].Plus(delta)];
          var p3 := p2[index - 1 := p2[index - 1].Plus(delta)];
          s.(points := p3[index := point])
        else
          var p1 := pts[index - 1 := pts[index - 1].Plus(delta)];
          var p2 := p1[index + 1 := p1[index + 1].Plus(delta)];
          s.(points := p2[index := point])
      else
        var p1 := if index > 0 then pts[index - 1 := pts[index - 1].Plus(delta)] else pts;
        var p2 := if index + 1 < count then p1[index + 1 := p1[index + 1].Plus(delta)] else p1;
        s.(points := p2[index := point])
  }

  /** SetControlPoint(index, point): out-of-range indices change nothing. */
  function WithControlPoint(s: BezierState, index: int, point: Vec3): (r: BezierState)
    requires Shaped(s)
    ensures r.modes == s.modes && r.loop == s.loop && |r.points| == |s.points|
    ensures index < 0 || index >= |s.points| ==> r == s
  {
    if index < 0 || index >= |s.points| then s
    else Enforced(Moved(s, index, point), index)
  }

  /** SetControlPointMode(index, mode): out-of-range indices change nothing; in loop mode the first and last slots change together. */
  function WithControlPointMode(s: BezierState, index: int, mode: Mode): (r: BezierState)
    requires Shaped(s)
    ensures r.loop == s.loop && |r.points| == |s.points| && |r.modes| == |s.modes|
    ensures index < 0 || index >= |s.points| ==> r == s
    ensures 0 <= index < |s.points| ==> r.modes[ModeSlot(index)] == mode
  {
    if index < 0 || index >= |s.points| then s
    else
      var modeIndex := ModeSlot(index);
      var ms := s.modes[modeIndex := mode];
      var ms' := if s.loop && modeIndex == 0 then ms[|ms| - 1 := mode]
                 else if s.loop && modeIndex == |ms| - 1 then ms[0 := mode]
                 else ms;
      Enforced(s.(modes := ms'), index)
  }

  /**
   * SetLoop(value). The flag is stored first; turning the loop on then
   * copies the first mode to the last slot and re-sets the first point,
   * which closes the loop. On empty lists the C# list access throws, and
   * the result's second component reports that.
   */
  function WithLoop(s: BezierState, value: bool): (r: (BezierState, bool))
    requires Shaped(s)
    ensures r.0.loop == value && |r.0.points| == |s.points| && |r.0.modes| == |s.modes|
    ensures !value ==> r == (s.(loop := false), false)
    ensures r.1 <==> value && (|s.modes| == 0 || |s.points| == 0)
  {
    var s1 := s.(loop := value);
    if !value then (s1, false)
    else if |s.modes| == 0 then (s1, true)
    else
      var s2 := s1.(modes := s1.modes[|s1.modes| - 1 := s1.modes[0]]);
      if |s2.points| == 0 then (s2, true)
      else (WithControlPoint(s2, 0, s2.points[0]), false)
  }

  /** Reset, as intended: an empty spline. */
  function Cleared(s: BezierState): (r: BezierState)
    ensures Exact(r) && |r.points| == 0 && r.loop == s.loop
  {
    BezierState([], [], s.loop)
  }

  /** Reset as written: the point list is emptied but the modes are kept. */
  function ClearedAsWritten(s: BezierState): (r: BezierState)
    ensures Shaped(r) && |r.points| == 0 && r.modes == s.modes && r.loop == s.loop
  {
    s.(points := [])
  }

  /** GetControlPointMode: out-of-range indices give Free; every in-range index has a mode slot. */
  function ControlPointMode(s: BezierState, index: int): (m: Mode)
    requires Shaped(s)
    ensures index < 0 || index >= |s.points| ==> m == Free
    ensures 0 <= index < |s.points| ==> 0 <= ModeSlot(index) < |s.modes| && m == s.modes[ModeSlot(index)]
  {
    if index < 0 || index >= |s.points| then Free else s.modes[ModeSlot(index)]
  }

  /** GetCurveCount: (count - 1) / 3 with C#'s truncating division, so 0 for an empty spline. */
  function CurveCount(count: nat): (n: nat)
    ensures count % 3 == 1 ==> 3 * n + 1 == count
    ensures count <= 1 ==> n == 0
  {
    if count == 0 then 0 else (count - 1) / 3
  }

  /** The curve GetPoint evaluates and the parameter along it. */
  datatype Segment = Segment(start: nat, local: real)

  /**
   * The segment choice in GetPoint: the last curve at parameter 1 for
   * t >= 1, otherwise curve floor(clamp(t) * curves) with the fractional
   * part as parameter.
   */
  function SegmentOf(count: nat, t: real): (seg: Segment)
    requires count >= 4 && count % 3 == 1
    ensures seg.start % 3 == 0 && seg.start + 3 < count
    ensures t >= 1.0 ==> seg.start == count - 4 && seg.local == 1.0
    ensures t < 1.0 ==> 0.0 <= seg.local < 1.0
    ensures t < 1.0 ==> ((seg.start / 3) as real) + seg.local == Clamp01(t) * (CurveCount(count) as real)
    ensures t <= 0.0 ==> seg.start == 0 && seg.local == 0.0
  {
    if t >= 1.0 then Segment(count - 4, 1.0)
    else
      var n := CurveCount(count);
      var scaled := Clamp01(t) * (n as real);
      ScaledBelowCount(Clamp01(t), n, scaled);
      var i := scaled.Floor;
      assert 0 <= i < n && (3 * i) / 3 == i;
      Segment(3 * i, scaled - (i as real))
  }

  /** A parameter in [0, 1) scaled by a positive curve count stays below that count. */
  lemma ScaledBelowCount(c: real, n: nat, scaled: real)
    requires 0.0 <= c < 1.0 && n > 0 && scaled == c * (n as real)
    ensures 0.0 <= scaled < n as real
  {
    assert (1.0 - c) * (n as real) > 0.0;
  }

  /** GetPoint in the spline's own coordinates: the zero vector below four points. */
  function SplinePoint(s: BezierState, t: real): (r: Vec3)
    requires Shaped(s)
    ensures |s.points| < 4 ==> r == Zero3
    ensures |s.points| >= 4 && t <= 0.0 ==> r == s.points[0]
    ensures |s.points| >= 4 && t >= 1.0 ==> r == s.points[|s.points| - 1]
  {
    if |s.points| < 4 then Zero3
    else
      var seg := SegmentOf(|s.points|, t);
      var i := seg.start;
      BezierPoint(s.points[i], s.points[i + 1], s.points[i + 2], s.points[i + 3], seg.local)
  }

  // ---------------------------------------------------------------------
  // Properties of the operations
  // ---------------------------------------------------------------------

  /** AddCurve keeps points = 3 * modes - 2: the first curve adds four points and two modes, later ones three and one. */
  lemma AddCurveKeepsExact(s: BezierState)
    requires Exact(s)
    ensures Exact(WithCurveAdded(s))
  {
  }

  /**
   * Without loop, AddCurve keeps the existing points, and the new ones lie
   * one unit apart along x after the last point (the first new point moves
   * only when the old last anchor has a non-free mode).
   */
  lemma AddCurvePlacesPoints(s: BezierState)
    requires Exact(s) && !s.loop
    ensures var r := WithCurveAdded(s); var count := |s.points|;
      var x := if count > 0 then s.points[count - 1].x else 0.0;
      && r.points[..count] == s.points
      && (count == 0 ==> r.points == [Right(1.0), Right(2.0), Right(3.0), Right(4.0)])
      && (count > 0 ==> r.points[count + 1..] == [Right(x + 2.0), Right(x + 3.0)])
      && (count > 0 && s.modes[|s.modes| - 1] == Free ==> r.points[count] == Right(x + 1.0))
  {
    var count := |s.points|;
    var x := if count > 0 then s.points[count - 1].x else 0.0;
    var lastMode := if count > 0 then s.modes[|s.modes| - 1] else Free;
    var pts := s.points + [Right(x + 1.0), Right(x + 2.0), Right(x + 3.0)];
    var ms := s.modes + [lastMode];
    if count == 0 {
      var full := BezierState(pts + [Right(x + 4.0)], ms + [lastMode], false);
      assert EnforceTarget(4, full.modes, 0).None?;
    } else {
      var st := BezierState(pts, ms, false);
      var idx := |pts| - 4;
      assert idx == count - 1;
      assert ModeSlot(idx) == |s.modes| - 1;
      var r := Enforced(st, idx);
      match EnforceTarget(|pts|, ms, idx)
      case None =>
      case Some(tg) =>
        assert tg.middle == count - 1;
        assert tg.enforced == count;
        assert r.points[..count] == s.points;
        assert r.points[count + 1..] == [Right(x + 2.0), Right(x + 3.0)];
    }
  }

  /** Every operation keeps the exact shape. */
  lemma OperationsKeepExact(s: BezierState, index: int, point: Vec3, mode: Mode, value: bool)
    requires Exact(s)
    ensures Exact(WithCurveAdded(s))
    ensures Exact(WithControlPoint(s, index, point))
    ensures Exact(WithControlPointMode(s, index, mode))
    ensures Exact(WithLoop(s, value).0)
    ensures Exact(Cleared(s))
  {
  }

  /** Enforcing a mode under the exact shape never touches the first or the last point. */
  lemma EnforcedKeepsEnds(s: BezierState, index: int)
    requires Exact(s) && 0 <= index < |s.points|
    ensures var r := Enforced(s, index);
      r.points[0] == s.points[0] && r.points[|s.points| - 1] == s.points[|s.points| - 1]
  {
    EnforceTargetIsLocal(s, index);
  }

  /** In loop mode, moving any control point keeps the first and last anchors equal. */
  lemma ControlPointKeepsLoopClosed(s: BezierState, index: int, point: Vec3)
    requires Exact(s) && LoopClosed(s)
    ensures LoopClosed(WithControlPoint(s, index, point))
  {
    if 0 <= index < |s.points| {
      var m := Moved(s, index, point);
      EnforcedKeepsEnds(m, index);
      if s.loop && index % 3 == 0 && index != 0 && index != |s.points| - 1 {
        assert 3 <= index <= |s.points| - 4;
      }
    }
  }

  /** In loop mode, changing a mode keeps the first and last slots (and points) equal. */
  lemma ControlPointModeKeepsLoopClosed(s: BezierState, index: int, mode: Mode)
    requires Exact(s) && LoopClosed(s)
    ensures LoopClosed(WithControlPointMode(s, index, mode))
  {
    if 0 <= index < |s.points| {
      var modeIndex := ModeSlot(index);
      var ms := s.modes[modeIndex := mode];
      var ms' := if s.loop && modeIndex == 0 then ms[|ms| - 1 := mode]
                 else if s.loop && modeIndex == |ms| - 1 then ms[0 := mode]
                 else ms;
      EnforcedKeepsEnds(s.(modes := ms'), index);
    }
  }

  /** AddCurve in loop mode closes the loop. */
  lemma AddCurveClosesLoop(s: BezierState)
    requires Exact(s)
    ensures LoopClosed(WithCurveAdded(s))
  {
  }

  /** Turning the loop on closes it (on a non-empty spline), and turning it off leaves the lists alone. */
  lemma SetLoopClosesLoop(s: BezierState, value: bool)
    requires Exact(s) && LoopClosed(s)
    ensures LoopClosed(WithLoop(s, value).0)
    ensures !WithLoop(s, value).1 && value ==> WithLoop(s, value).0.points[0] == s.points[0]
  {
    if value && |s.modes| > 0 {
      var s2 := s.(loop := true, modes := s.modes[|s.modes| - 1 := s.modes[0]]);
      assert Exact(s2);
      var m := Moved(s2, 0, s2.points[0]);
      EnforcedKeepsEnds(m, 0);
    }
  }

  /**
   * Moving an interior anchor without loop drags its fixed handle by the
   * same offset; the other handle moves by that offset too when the
   * anchor's mode is free, and no other point changes.
   */
  lemma AnchorDragsHandles(s: BezierState, index: int, point: Vec3)
    requires Exact(s) && !s.loop && 0 < index < |s.points| - 1 && index % 3 == 0
    ensures var r := WithControlPoint(s, index, point); var delta := point.Minus(s.points[index]);
      && r.points[index] == point
      && r.points[index - 1] == s.points[index - 1].Plus(delta)
      && (s.modes[ModeSlot(index)] == Free ==> r.points[index + 1] == s.points[index + 1].Plus(delta))
      && (forall j :: 0 <= j < |s.points| && j != index - 1 && j != index && j != index + 1 ==> r.points[j] == s.points[j])
  {
    var m := Moved(s, index, point);
    EnforceTargetIsLocal(m, index);
    assert ModeSlot(index) == index / 3;
  }

  // ---------------------------------------------------------------------
  // The class
  // ---------------------------------------------------------------------

  class BezierSpline {
    var points: seq<Vec3>
    var modes: seq<Mode>
    var loop: bool

    function State(): BezierState
      reads this
    {
      BezierState(points, modes, loop)
    }

    ghost predicate Valid()
      reads this
    {
      Exact(State()) && LoopClosed(State())
    }

    /** Awake with no serialized data: empty lists. */
    constructor ()
      ensures points == [] && modes == [] && !loop
      ensures Valid()
    {
      points := [];
      modes := [];
      loop := false;
    }

    method EnforceMode(index: int)
      requires Shaped(State()) && 0 <= index < |points|
      modifies this`points
      ensures State() == Enforced(old(State()), index)
    {
      var modeIndex := (index + 1) / 3;
      if modeIndex >= |modes| {
        return;
      }
      var mode := modes[modeIndex];
      if mode == Free || modeIndex == 0 || modeIndex == |modes| - 1 {
        return;
      }
      var middleIndex := modeIndex * 3;
      var fixedIndex := 0;
      var enforcedIndex := 0;
      if index <= middleIndex {
        fixedIndex := middleIndex - 1;
        if fixedIndex < 0 {
          fixedIndex := |points| - 2;
        }
        enforcedIndex := middleIndex + 1;
        if enforcedIndex >= |points| {
          enforcedIndex := 1;
        }
      } else {
        fixedIndex := middleIndex + 1;
        if fixedIndex >= |points| {
          fixedIndex := 1;
        }
        enforcedIndex := middleIndex - 1;
        if enforcedIndex < 0 {
          enforcedIndex := |points| - 2;
        }
      }
      var middle := points[middleIndex];
      var enforcedTangent := Zero3;
      if mode == Mirrored {
        enforcedTangent := middle.Minus(points[fixedIndex]);
      }
      points := points[enforcedIndex := middle.Plus(enforcedTangent)];
    }

    /** Reset, clearing both lists so that the spline is empty again. */
    method Reset()
      modifies this`points, this`modes
      ensures State() == Cleared(old(State()))
      ensures Valid()
    {
      points := [];
      modes := [];
    }

    method AddCurve()
      requires Valid()
      modifies this`points, this`modes
      ensures State() == WithCurveAdded(old(State()))
      ensures Valid()
    {
      ghost var s := State();
      var lastPoint := Zero3;
      var lastMode := Free;
      if |points| > 0 {
        lastPoint := points[|points| - 1];
        lastMode := modes[|modes| - 1];
      }
      var x := lastPoint.x;
      points := points + [Right(x + 1.0), Right(x + 2.0), Right(x + 3.0)];
      modes := modes + [lastMode];
      if |points| == 3 {
        points := points + [Right(x + 4.0)];
        modes := modes + [lastMode];
      }
      assert State() == Extended(s);
      EnforceMode(|points| - 4);
      ghost var added := State();
      if loop {
        points := points[|points| - 1 := points[0]];
        modes := modes[|modes| - 1 := modes[0]];
        assert State() == ClosedOver(added);
        EnforceMode(0);
      }
      AddCurveKeepsExact(s);
      AddCurveClosesLoop(s);
    }

    method SetControlPoint(index: int, point: Vec3)
      requires Exact(State())
      modifies this`points
      ensures State() == WithControlPoint(old(State()), index, point)
      ensures Exact(State()) && (old(LoopClosed(State())) ==> LoopClosed(State()))
    {
      if index < 0 || index >= |points| {
        return;
      }
      if index % 3 == 0 {
        var delta := point.Minus(points[index]);
        if loop {
          if index == 0 {
            points := points[1 := points[1].Plus(delta)];
            points := points[|points| - 2 := points[|points| - 2].Plus(delta)];
            points := points[|points| - 1 := point];
          } else if index == |points| - 1 {
            points := points[0 := point];
            points := points[1 := points[1].Plus(delta)];
            points := points[index - 1 := points[index - 1].Plus(delta)];
          } else {
            points := points[index - 1 := points[index - 1].Plus(delta)];
            points := points[index + 1 := points[index + 1].Plus(delta)];
          }
        } else {
          if index > 0 {
            points := points[index - 1 := points[index - 1].Plus(delta)];
          }
          if index + 1 < |points| {
            points := points[index + 1 := points[index + 1].Plus(delta)];
          }
        }
      }
      points := points[index := point];
      assert State() == Moved(old(State()), index, point);
      EnforceMode(index);
      OperationsKeepExact(old(State()), index, point, Free, false);
      if LoopClosed(old(State())) {
        ControlPointKeepsLoopClosed(old(State()), index, point);
      }
    }

    method SetControlPointMode(index: int, mode: Mode)
      requires Valid()
      modifies this`points, this`modes
      ensures State() == WithControlPointMode(old(State()), index, mode)
      ensures Valid()
    {
      if index < 0 || index >= |points| {
        return;
      }
      var modeIndex := (index + 1) / 3;
      modes := modes[modeIndex := mode];
      if loop {
        if modeIndex == 0 {
          modes := modes[|modes| - 1 := mode];
        } else if modeIndex == |modes| - 1 {
          modes := modes[0 := mode];
        }
      }
      EnforceMode(index);
      ControlPointModeKeepsLoopClosed(old(State()), index, mode);
    }

    /** SetLoop; `failed` reports the exception the C# code throws on an empty spline. */
    method SetLoop(value: bool) returns (failed: bool)
      requires Valid()
      modifies this`points, this`modes, this`loop
      ensures (State(), failed) == WithLoop(old(State()), value)
      ensures Valid()
    {
      loop := value;
      failed := false;
      if value {
        if |modes| == 0 {
          failed := true;
          return;
        }
        modes := modes[|modes| - 1 := modes[0]];
        SetControlPoint(0, points[0]);
      }
      SetLoopClosesLoop(old(State()), value);
    }

    /** GetControlPoint: the zero vector for an out-of-range index. */
    function GetControlPoint(index: int): (p: Vec3)
      reads this
      ensures 0 <= index < |points| ==> p == points[index]
      ensures index < 0 || index >= |points| ==> p == Zero3
    {
      if index < 0 || index >= |points| then Zero3 else points[index]
    }

    function GetControlPointMode(index: int): (m: Mode)
      reads this
      requires Shaped(State())
      ensures index < 0 || index >= |points| ==> m == Free
      ensures 0 <= index < |points| ==> m == modes[(index + 1) / 3]
    {
      ControlPointMode(State(), index)
    }

    /** GetPoint before the transform to world space. */
    function GetPoint(t: real): (r: Vec3)
      reads this
      requires Shaped(State())
      ensures r == SplinePoint(State(), t)
      ensures |points| < 4 ==> r == Zero3
      ensures |points| >= 4 && t <= 0.0 ==> r == points[0]
      ensures |points| >= 4 && t >= 1.0 ==> r == points[|points| - 1]
    {
      SplinePoint(State(), t)
    }

    function GetControlPointCount(): (count: nat)
      reads this
      ensures Exact(State()) && count > 0 ==> count % 3 == 1 && count == 3 * GetCurveCount() + 1
    {
      |points|
    }

    function GetCurveCount(): (n: nat)
      reads this
      ensures Exact(State()) && |points| > 0 ==> 3 * n + 1 == |points| && n == |modes| - 1
      ensures |points| <= 1 ==> n == 0
    {
      CurveCount(|points|)
    }
  }

  // ---------------------------------------------------------------------
  // Reset as written
  // ---------------------------------------------------------------------

  /**
   * Reset as written keeps stale modes. Starting from a spline of two
   * curves whose middle anchor is mirrored, Reset, AddCurve and
   * moving the last anchor take EnforceMode's wrap-around fallback: the
   * handle past the end is replaced by point 1, the first curve's own
   * handle, which jumps from x = 2 to x = 6.
   */
  lemma ResetAsWrittenBreaksShape()
    ensures var s0 := BezierState([Right(0.0), Right(1.0), Right(2.0), Right(3.0), Right(4.0), Right(5.0), Right(6.0)],
                                  [Free, Mirrored, Free], false);
      var s1 := WithCurveAdded(ClearedAsWritten(s0));
      var s2 := WithControlPoint(s1, 3, Right(5.0));
      && Exact(s0) && !Exact(ClearedAsWritten(s0)) && !Exact(s1)
      && s1.points == [Right(1.0), Right(2.0), Right(3.0), Right(4.0)]
      && EnforceTarget(4, s1.modes, 3) == Some(Target(3, 2, 1))
      && s2.points[1] == Right(6.0)
  {
    var s0 := BezierState([Right(0.0), Right(1.0), Right(2.0), Right(3.0), Right(4.0), Right(5.0), Right(6.0)],
                          [Free, Mirrored, Free], false);
    var c := ClearedAsWritten(s0);
    var pts := [Right(1.0), Right(2.0), Right(3.0), Right(4.0)];
    var ms := [Free, Mirrored, Free, Free, Free];
    assert c.points + [Right(1.0), Right(2.0), Right(3.0)] + [Right(4.0)] == pts;
    assert EnforceTarget(4, ms, 0).None?;
    var s1 := WithCurveAdded(c);
    assert s1 == BezierState(pts, ms, false);
    var m := Moved(s1, 3, Right(5.0));
    assert m.points == [Right(1.0), Right(2.0), Right(4.0), Right(5.0)];
    assert ModeSlot(3) == 1;
    assert EnforceTarget(4, ms, 3) == Some(Target(3, 2, 1));
  }

  /** Reset as intended leaves the spline empty and exactly shaped, so the next AddCurve starts a fresh one-curve spline. */
  lemma ResetThenAddCurve(s: BezierState)
    ensures var r := WithCurveAdded(Cleared(s));
      Exact(r) && |r.modes| == 2 && |r.points| == 4
  {
    AddCurveKeepsExact(Cleared(s));
  }
}
