/**
 * The polyline spline (Line, LineSpline).
 *
 * A list of points joined by straight lines, optionally looping back to
 * the first point. Vector3.Magnitude is the parameter `magnitude`.
 */
module LineSplines {
  import opened Wrappers
  import opened Geometry

  /** Line.GetPoint: Vector3.Lerp, which clamps the parameter. */
  function LinePoint(p0: Vec3, p1: Vec3, t: real): (r: Vec3)
    ensures t <= 0.0 ==> r == p0
    ensures t >= 1.0 ==> r == p1
  {
    Lerp(p0, p1, t)
  }

  /** Line.GetLength */
  function LineLength(p0: Vec3, p1: Vec3, magnitude: Vec3 -> real): real
  {
    magnitude(p0.Minus(p1))
  }

  /** The summed length of the first `n` lines. */
  function PrefixLength(points: seq<Vec3>, n: nat, magnitude: Vec3 -> real): real
    requires n < |points|
  {
    if n == 0 then 0.0 else PrefixLength(points, n - 1, magnitude) + LineLength(points[n - 1], points[n], magnitude)
  }

  /** GetTotalLength: the sum of the lengths of all lines, 0 for fewer than two points. */
  function TotalLength(points: seq<Vec3>, magnitude: Vec3 -> real): real
  {
    if |points| == 0 then 0.0 else PrefixLength(points, |points| - 1, magnitude)
  }

  lemma {:induction false} PrefixLengthOfExtension(points: seq<Vec3>, p: Vec3, n: nat, magnitude: Vec3 -> real)
    requires n < |points|
    ensures PrefixLength(points + [p], n, magnitude) == PrefixLength(points, n, magnitude)
  {
    if n > 0 {
      PrefixLengthOfExtension(points, p, n - 1, magnitude);
      assert (points + [p])[n - 1] == points[n - 1] && (points + [p])[n] == points[n];
    }
  }

  /** Appending a point adds exactly the length of the new line to the total. */
  lemma TotalLengthOfExtension(points: seq<Vec3>, p: Vec3, magnitude: Vec3 -> real)
    requires |points| > 0
    ensures TotalLength(points + [p], magnitude)
         == TotalLength(points, magnitude) + LineLength(points[|points| - 1], p, magnitude)
  {
    PrefixLengthOfExtension(points, p, |points| - 1, magnitude);
    assert (points + [p])[|points| - 1] == points[|points| - 1];
  }

  /** With a non-negative magnitude, every prefix length is non-negative and grows with the prefix. */
  lemma {:induction false} PrefixLengthMonotone(points: seq<Vec3>, m: nat, n: nat, magnitude: Vec3 -> real)
    requires m <= n < |points|
    requires forall v :: magnitude(v) >= 0.0
    ensures 0.0 <= PrefixLength(points, m, magnitude) <= PrefixLength(points, n, magnitude)
    decreases n
  {
    if m < n {
      PrefixLengthMonotone(points, m, n - 1, magnitude);
    } else if m > 0 {
      PrefixLengthMonotone(points, m - 1, m - 1, magnitude);
    }
  }

  class LineSpline {
    var points: seq<Vec3>
    var loop: bool

    /** A spline never holds a single point: AddLine starts with two. */
    ghost predicate Valid()
      reads this
    {
      |points| != 1
    }

    /** Awake with no serialized data. */
    constructor ()
      ensures points == [] && !loop && Valid()
    {
      points := [];
      loop := false;
    }

    /** Reset empties the point list. */
    method Reset()
      modifies this`points
      ensures points == [] && Valid()
    {
      points := [];
    }

    /**
     * AddLine: one point one unit further along x than the last one (two
     * points, at x = 1 and 2, on an empty spline); in loop mode the last
     * point is then overwritten by the first.
     */
    method AddLine()
      requires Valid()
      modifies this`points
      ensures Valid()
      ensures var x := if |old(points)| > 0 then old(points)[|old(points)| - 1].x else 0.0;
        var added := old(points) + [Vec3(x + 1.0, 0.0, 0.0)] + (if |old(points)| == 0 then [Vec3(x + 2.0, 0.0, 0.0)] else []);
        points == (if loop then added[|added| - 1 := added[0]] else added)
      ensures |points| == |old(points)| + (if |old(points)| == 0 then 2 else 1)
      ensures points[..|old(points)|] == old(points)
      ensures loop ==> points[|points| - 1] == points[0]
    {
      var lastPoint := Zero3;
      if |points| > 0 {
        lastPoint := points[|points| - 1];
      }
      points := points + [Vec3(lastPoint.x + 1.0, 0.0, 0.0)];
      if |points| == 1 {
        points := points + [Vec3(lastPoint.x + 2.0, 0.0, 0.0)];
      }
      if loop {
        points := points[|points| - 1 := points[0]];
      }
    }

    /** SetPoint: an out-of-range index is ignored; otherwise only that point changes. */
    method SetPoint(index: int, point: Vec3)
      requires Valid()
      modifies this`points
      ensures Valid()
      ensures index < 0 || index >= |old(points)| ==> points == old(points)
      ensures 0 <= index < |old(points)| ==> points == old(points)[index := point]
    {
      if index < 0 || index >= |points| {
        return;
      }
      points := points[index := point];
    }

    /** SetLoop only stores the flag. */
    method SetLoop(value: bool)
      modifies this`loop
      ensures loop == value
    {
      loop := value;
    }

    /** GetControlPoint: the zero vector for an out-of-range index. */
    function GetControlPoint(index: int): (p: Vec3)
      reads this
      ensures 0 <= index < |points| ==> p == points[index]
      ensures index < 0 || index >= |points| ==> p == Zero3
    {
      if index < 0 || index >= |points| then Zero3 else points[index]
    }

    function GetPointCount(): (count: nat)
      reads this
      ensures count == GetLineCount() + 1
      ensures Valid() ==> count != 1
    {
      |points|
    }

    /** GetLineCount: one fewer than the points, so -1 on an empty spline. */
    function GetLineCount(): (n: int)
      reads this
      ensures Valid() ==> n == -1 || n >= 1
    {
      |points| - 1
    }

    method GetTotalLength(magnitude: Vec3 -> real) returns (length: real)
      ensures length == TotalLength(points, magnitude)
    {
      length := 0.0;
      var i := 0;
      while i < |points| - 1
        invariant 0 <= i <= |points| && (|points| > 0 ==> i <= |points| - 1)
        invariant length == if |points| == 0 then 0.0 else PrefixLength(points, i, magnitude)
      {
        length := length + LineLength(points[i], points[i + 1], magnitude);
        i := i + 1;
      }
    }

    /**
     * GetPoint in the spline's own coordinates: the zero vector below two
     * points and the end of the last line for t >= 1. Below 1 the source
     * searches the lines by accumulated length in floating point; that
     * case is not modelled and gives None.
     */
    function GetPoint(t: real): (r: Option<Vec3>)
      reads this
      ensures |points| < 2 ==> r == Some(Zero3)
      ensures |points| >= 2 && t >= 1.0 ==> r == Some(points[|points| - 1])
    {
      if |points| < 2 then Some(Zero3)
      else if t >= 1.0 then Some(LinePoint(points[|points| - 2], points[|points| - 1], 1.0))
      else None
    }
  }
}
