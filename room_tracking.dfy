/**
 * The room tracker: polygon area by the shoelace formula, the bounding box of
 * a floor polygon, the choice of the floor among detected planes, the clamped
 * DJ position, the manual-room defaults and the bounding box grown from head
 * positions.  Plane detection, reference spaces and scene entities are
 * outside the model; detected planes and head positions arrive as arguments.
 */
module RoomTracking {
  import opened Common
  import opened RealSums

  /** A polygon vertex on the floor plane (the `{x, z}` of a plane polygon). */
  datatype Point = Point(x: real, z: real)

  /**
   * A detected plane: the y component of its `orientation`, the y component
   * of its `position` (its height) and its outline.
   */
  datatype Plane = Plane(orientationY: real, positionY: real, polygon: seq<Point>)

  /** The room record written by every estimator. */
  datatype Bounds = Bounds(
    minX: real, maxX: real, minZ: real, maxZ: real,
    width: real, depth: real, center: Point)

  /** The margin kept between the DJ and each wall, in metres. */
  const WallMargin: real := 0.5

  /** The room assumed when no session is available. */
  const ManualRoomBounds: Bounds := Bounds(-3.0, 3.0, -3.0, 3.0, 6.0, 6.0, Point(0.0, 0.0))

  // ---------------------------------------------------------------------
  // Shoelace area

  /** The signed cross term of one polygon edge. */
  function Cross(a: Point, b: Point): real
  {
    a.x * b.z - b.x * a.z
  }

  /** The index of the vertex after vertex `i`, the first following the last. */
  function Succ(n: nat, i: nat): (j: nat)
    requires i < n
    ensures j < n
    ensures j == (i + 1) % n
  {
    if i + 1 < n then i + 1 else 0
  }

  /** The cross term of each edge, the last edge closing the polygon. */
  function EdgeTerms(p: seq<Point>): (t: seq<real>)
    ensures |t| == |p|
    ensures forall i :: 0 <= i < |p| ==> t[i] == Cross(p[i], p[Succ(|p|, i)])
  {
    seq(|p|, i requires 0 <= i < |p| => Cross(p[i], p[Succ(|p|, i)]))
  }

  /** The area enclosed by a polygon; fewer than three vertices enclose nothing. */
  function PolygonArea(polygon: seq<Point>): (area: real)
    ensures area >= 0.0
    ensures |polygon| < 3 ==> area == 0.0
  {
    if |polygon| < 3 then 0.0 else Abs(Sum(EdgeTerms(polygon))) / 2.0
  }

  /** The vertex list started one vertex later. */
  function Rotate(p: seq<Point>): (r: seq<Point>)
    requires |p| > 0
    ensures |r| == |p|
  {
    p[1..] + [p[0]]
  }

  /** Starting the vertex list at another vertex does not change the area. */
  lemma AreaRotationInvariant(p: seq<Point>)
    requires |p| > 0
    ensures PolygonArea(Rotate(p)) == PolygonArea(p)
  {
    var n := |p|;
    if n >= 3 {
      var t := EdgeTerms(p);
      var r := Rotate(p);
      forall i | 0 <= i < n
        ensures EdgeTerms(r)[i] == (t[1..] + [t[0]])[i]
      {
        var j := Succ(n, i);
        assert r[i] == p[j];
        assert r[Succ(n, i)] == p[Succ(n, j)];
        assert (t[1..] + [t[0]])[i] == t[j];
      }
      assert EdgeTerms(r) == t[1..] + [t[0]];
      SumAppend(t[1..], [t[0]]);
      assert [t[0]][..0] == [];
      SumFirst(t);
    }
  }

  /** Listing the vertices in the opposite order does not change the area. */
  lemma AreaReversalInvariant(p: seq<Point>)
    ensures PolygonArea(Reverse(p)) == PolygonArea(p)
  {
    var n := |p|;
    if n >= 3 {
      var t := EdgeTerms(p);
      var q := Reverse(p);
      var mirrored := Reverse(t[..n - 1]) + [t[n - 1]];
      forall i | 0 <= i < n
        ensures EdgeTerms(q)[i] == Negate(mirrored)[i]
      {
        if i < n - 1 {
          assert Succ(n, n - 2 - i) == n - 1 - i;
          assert EdgeTerms(q)[i] == Cross(p[n - 1 - i], p[n - 2 - i]);
          assert mirrored[i] == t[n - 2 - i];
        } else {
          assert Succ(n, n - 1) == 0;
          assert EdgeTerms(q)[i] == Cross(p[0], p[n - 1]);
          assert mirrored[i] == t[n - 1];
        }
      }
      assert EdgeTerms(q) == Negate(mirrored);
      SumNegate(mirrored);
      SumAppend(Reverse(t[..n - 1]), [t[n - 1]]);
      assert [t[n - 1]][..0] == [];
      SumReverse(t[..n - 1]);
      assert t[..n - 1] + [t[n - 1]] == t;
      SumAppend(t[..n - 1], [t[n - 1]]);
    }
  }

  // ---------------------------------------------------------------------
  // Bounding boxes

  /** The record's derived fields agree with its extremes: sizes and the midpoint. */
  ghost predicate WellFormed(b: Bounds)
  {
    && b.minX <= b.maxX && b.minZ <= b.maxZ
    && b.width == b.maxX - b.minX && b.depth == b.maxZ - b.minZ
    && b.center == Point((b.minX + b.maxX) / 2.0, (b.minZ + b.maxZ) / 2.0)
  }

  /** `b` is the smallest axis-aligned box holding every vertex of `polygon`. */
  ghost predicate IsBoundingBox(b: Bounds, polygon: seq<Point>)
  {
    && WellFormed(b)
    && (forall i :: 0 <= i < |polygon| ==>
          b.minX <= polygon[i].x <= b.maxX && b.minZ <= polygon[i].z <= b.maxZ)
    && (exists i :: 0 <= i < |polygon| && polygon[i].x == b.minX)
    && (exists i :: 0 <= i < |polygon| && polygon[i].x == b.maxX)
    && (exists i :: 0 <= i < |polygon| && polygon[i].z == b.minZ)
    && (exists i :: 0 <= i < |polygon| && polygon[i].z == b.maxZ)
  }

  /** The manual room is a well-formed 6 m square centred on the origin. */
  lemma ManualRoomIsWellFormed()
    ensures WellFormed(ManualRoomBounds)
    ensures ManualRoomBounds.width == 6.0 && ManualRoomBounds.depth == 6.0
  {
  }

  /**
   * The room estimated from head movement, as the source writes it: the
   * running extremes widened by 1 m, and a centre whose z is the mean of
   * `minZ` with itself.
   */
  function MovementEstimate(minX: real, maxX: real, minZ: real, maxZ: real): (b: Bounds)
    ensures b.minX < minX && maxX < b.maxX && b.minZ < minZ && maxZ < b.maxZ
    ensures b.width == b.maxX - b.minX && b.depth == b.maxZ - b.minZ
    ensures b.center.x == (b.minX + b.maxX) / 2.0
    ensures b.center.z == minZ
  {
    Bounds(
      minX - 1.0, maxX + 1.0, minZ - 1.0, maxZ + 1.0,
      (maxX - minX) + 2.0, (maxZ - minZ) + 2.0,
      Point((minX + maxX) / 2.0, (minZ + minZ) / 2.0))
  }

  /**
   * The movement estimate keeps 1 m around every sampled extreme and its
   * sizes and x centre agree with its box; its z centre is the running
   * `minZ`, which is the box's midpoint only when all samples share one z.
   */
  lemma MovementEstimateShape(minX: real, maxX: real, minZ: real, maxZ: real)
    requires minX <= maxX && minZ <= maxZ
    ensures var b := MovementEstimate(minX, maxX, minZ, maxZ);
      && b.minX + 1.0 == minX && b.maxX - 1.0 == maxX
      && b.minZ + 1.0 == minZ && b.maxZ - 1.0 == maxZ
      && b.width == b.maxX - b.minX && b.depth == b.maxZ - b.minZ
      && b.center.x == (b.minX + b.maxX) / 2.0
      && b.center.z == minZ
      && (WellFormed(b) <==> minZ == maxZ)
  {
  }

  // ---------------------------------------------------------------------
  // Floor choice and DJ placement

  /** A plane whose normal is dominated by its y component. */
  predicate IsHorizontal(plane: Plane): (h: bool)
    ensures h <==> plane.orientationY > 0.8 || plane.orientationY < -0.8
    ensures plane.orientationY == 1.0 || plane.orientationY == -1.0 ==> h
    ensures -0.8 <= plane.orientationY <= 0.8 ==> !h
  {
    Abs(plane.orientationY) > 0.8
  }

  /**
   * Plane `k` is the floor: horizontal with positive area, at least as large
   * as every horizontal plane, and strictly larger than those before it.
   */
  ghost predicate IsLargestFloor(planes: seq<Plane>, k: nat)
  {
    && k < |planes|
    && IsHorizontal(planes[k])
    && PolygonArea(planes[k].polygon) > 0.0
    && (forall j :: 0 <= j < |planes| && IsHorizontal(planes[j]) ==>
          PolygonArea(planes[j].polygon) <= PolygonArea(planes[k].polygon))
    && (forall j :: 0 <= j < k && IsHorizontal(planes[j]) ==>
          PolygonArea(planes[j].polygon) < PolygonArea(planes[k].polygon))
  }

  /** `v` moved into `[lo, hi]` (`Math.max(lo, Math.min(hi, v))`). */
  function Clamp(v: real, lo: real, hi: real): (r: real)
    ensures r >= lo
    ensures lo <= hi ==> r <= hi
    ensures lo <= v <= hi ==> r == v
    ensures lo <= hi && v < lo ==> r == lo
    ensures v > hi ==> r == Max(lo, hi)
  {
    Max(lo, Min(hi, v))
  }

  // ---------------------------------------------------------------------
  // The tracker

  class RoomTracker {
    var isTracking: bool
    var roomBounds: Option<Bounds>
    var floorHeight: real
    var planes: seq<Plane>
    /** Whether a WebXR session has been taken over; a later start without one keeps it. */
    var hasSession: bool

    constructor ()
      ensures !isTracking && roomBounds == None && floorHeight == 0.0
      ensures planes == [] && !hasSession
    {
      isTracking := false;
      roomBounds := None;
      floorHeight := 0.0;
      planes := [];
      hasSession := false;
    }

    /**
     * Starts tracking once.  With a session, plane detection takes over
     * (its results arrive through `UpdateDetectedPlanes`); without one the
     * manual room is set up.
     */
    method StartTracking(sessionAvailable: bool)
      modifies this`isTracking, this`hasSession, this`roomBounds, this`floorHeight
      ensures old(isTracking) ==> unchanged(this)
      ensures !old(isTracking) ==> isTracking && hasSession == (old(hasSession) || sessionAvailable)
      ensures !old(isTracking) && sessionAvailable ==>
        roomBounds == old(roomBounds) && floorHeight == old(floorHeight)
      ensures !old(isTracking) && !sessionAvailable ==>
        roomBounds == Some(ManualRoomBounds) && floorHeight == 0.0
    {
      if isTracking {
        return;
      }
      if sessionAvailable {
        hasSession := true;
      } else {
        SetupManualRoom();
      }
      isTracking := true;
    }

    /** Falls back to a 6 m square room on a floor at height 0. */
    method SetupManualRoom()
      modifies this`roomBounds, this`floorHeight
      ensures floorHeight == 0.0
      ensures roomBounds == Some(ManualRoomBounds)
      ensures WellFormed(roomBounds.value)
    {
      floorHeight := 0.0;
      roomBounds := Some(ManualRoomBounds);
    }

    /** Puts the floor 1.7 m below the camera; without a camera nothing changes. */
    method EstimateFloorHeight(cameraY: Option<real>)
      modifies this`floorHeight
      ensures cameraY.Some? ==> floorHeight + 1.7 == cameraY.value
      ensures cameraY.None? ==> floorHeight == old(floorHeight)
    {
      if cameraY.None? {
        return;
      }
      floorHeight := cameraY.value - 1.7;
    }

    /** Stops tracking. */
    method StopTracking()
      modifies this`isTracking
      ensures !isTracking
    {
      isTracking := false;
    }

    /** The shoelace area, accumulated edge by edge. */
    method CalculatePolygonArea(polygon: seq<Point>) returns (area: real)
      ensures area == PolygonArea(polygon)
    {
      if |polygon| < 3 {
        return 0.0;
      }
      var sum := 0.0;
      var i := 0;
      while i < |polygon|
        invariant 0 <= i <= |polygon|
        invariant sum == Sum(EdgeTerms(polygon)[..i])
      {
        var j := (i + 1) % |polygon|;
        SumPrefixStep(EdgeTerms(polygon), i);
        sum := sum + polygon[i].x * polygon[j].z;
        sum := sum - polygon[j].x * polygon[i].z;
        i := i + 1;
      }
      assert EdgeTerms(polygon)[..|polygon|] == EdgeTerms(polygon);
      area := Abs(sum) / 2.0;
    }

    /** The axis-aligned bounding box of a non-empty polygon. */
    method CalculateRoomBounds(polygon: seq<Point>) returns (b: Bounds)
      requires |polygon| > 0
      ensures IsBoundingBox(b, polygon)
    {
      // The source starts from +/-Infinity; the first vertex replaces both.
      var minX, maxX := polygon[0].x, polygon[0].x;
      var minZ, maxZ := polygon[0].z, polygon[0].z;
      ghost var iMinX, iMaxX, iMinZ, iMaxZ := 0, 0, 0, 0;
      var i := 1;
      while i < |polygon|
        invariant 1 <= i <= |polygon|
        invariant forall k :: 0 <= k < i ==>
          minX <= polygon[k].x <= maxX && minZ <= polygon[k].z <= maxZ
        invariant 0 <= iMinX < i && polygon[iMinX].x == minX
        invariant 0 <= iMaxX < i && polygon[iMaxX].x == maxX
        invariant 0 <= iMinZ < i && polygon[iMinZ].z == minZ
        invariant 0 <= iMaxZ < i && polygon[iMaxZ].z == maxZ
      {
        var point := polygon[i];
        if point.x < minX { iMinX := i; }
        if point.x > maxX { iMaxX := i; }
        if point.z < minZ { iMinZ := i; }
        if point.z > maxZ { iMaxZ := i; }
        minX := Min(minX, point.x);
        maxX := Max(maxX, point.x);
        minZ := Min(minZ, point.z);
        maxZ := Max(maxZ, point.z);
        i := i + 1;
      }
      b := Bounds(minX, maxX, minZ, maxZ, maxX - minX, maxZ - minZ,
                  Point((minX + maxX) / 2.0, (minZ + maxZ) / 2.0));
    }

    /** The largest near-horizontal plane with positive area, the earliest on ties. */
    method FindFloorPlane(candidates: seq<Plane>) returns (floor: Option<Plane>)
      ensures floor.None? <==>
        forall j :: 0 <= j < |candidates| && IsHorizontal(candidates[j]) ==> PolygonArea(candidates[j].polygon) == 0.0
      ensures floor.Some? ==>
        exists k :: 0 <= k < |candidates| && candidates[k] == floor.value && IsLargestFloor(candidates, k)
    {
      floor := None;
      var largestArea := 0.0;
      ghost var k: nat := 0;
      var i := 0;
      while i < |candidates|
        invariant 0 <= i <= |candidates|
        invariant floor.None? ==> largestArea == 0.0
        invariant floor.None? ==>
          forall j :: 0 <= j < i && IsHorizontal(candidates[j]) ==> PolygonArea(candidates[j].polygon) == 0.0
        invariant floor.Some? ==>
          && k < i && candidates[k] == floor.value && IsHorizontal(candidates[k])
          && largestArea == PolygonArea(candidates[k].polygon) && largestArea > 0.0
          && (forall j :: 0 <= j < i && IsHorizontal(candidates[j]) ==> PolygonArea(candidates[j].polygon) <= largestArea)
          && (forall j :: 0 <= j < k && IsHorizontal(candidates[j]) ==> PolygonArea(candidates[j].polygon) < largestArea)
      {
        var plane := candidates[i];
        if Abs(plane.orientationY) > 0.8 {
          var area := CalculatePolygonArea(plane.polygon);
          if area > largestArea {
            largestArea := area;
            floor := Some(plane);
            k := i;
          }
        }
        i := i + 1;
      }
      if floor.Some? {
        assert IsLargestFloor(candidates, k);
      }
    }

    /** Takes the floor's height and the bounding box of its outline. */
    method ProcessFloorPlane(floorPlane: Plane)
      requires |floorPlane.polygon| > 0
      modifies this`floorHeight, this`roomBounds
      ensures floorHeight == floorPlane.positionY
      ensures roomBounds.Some? && IsBoundingBox(roomBounds.value, floorPlane.polygon)
    {
      floorHeight := floorPlane.positionY;
      var b := CalculateRoomBounds(floorPlane.polygon);
      roomBounds := Some(b);
    }

    /** Records the planes of one frame and, if one of them is a floor, adopts it. */
    method UpdateDetectedPlanes(detectedPlanes: seq<Plane>)
      modifies this`planes, this`floorHeight, this`roomBounds
      ensures planes == detectedPlanes
      ensures (forall j :: 0 <= j < |planes| && IsHorizontal(planes[j]) ==> PolygonArea(planes[j].polygon) == 0.0)
        ==> floorHeight == old(floorHeight) && roomBounds == old(roomBounds)
      ensures (exists j :: 0 <= j < |planes| && IsHorizontal(planes[j]) && PolygonArea(planes[j].polygon) != 0.0)
        ==> exists k :: 0 <= k < |planes| && IsLargestFloor(planes, k)
              && floorHeight == planes[k].positionY
              && roomBounds.Some? && IsBoundingBox(roomBounds.value, planes[k].polygon)
    {
      planes := detectedPlanes;
      var floorPlane := FindFloorPlane(planes);
      if floorPlane.Some? {
        ProcessFloorPlane(floorPlane.value);
      }
    }

    /**
     * Where to place the DJ: opposite the user through the room's centre,
     * kept 0.5 m inside the walls, on the floor.  Without a room the DJ goes
     * 2 m in front of the origin.
     */
    function GetOptimalDJPosition(userPosition: Option<Point>): (pos: Vec3)
      reads this
      ensures pos.y == floorHeight
      ensures roomBounds.None? ==> pos == Vec3(0.0, floorHeight, -2.0)
      ensures roomBounds.Some? ==>
        var b := roomBounds.value;
        && pos.x >= b.minX + WallMargin && pos.z >= b.minZ + WallMargin
        && (b.maxX - b.minX >= 2.0 * WallMargin ==> pos.x <= b.maxX - WallMargin)
        && (b.maxZ - b.minZ >= 2.0 * WallMargin ==> pos.z <= b.maxZ - WallMargin)
    {
      if roomBounds.None? then Vec3(0.0, floorHeight, -2.0)
      else
        var b := roomBounds.value;
        var user := if userPosition.Some? then userPosition.value else Point(0.0, 0.0);
        var optimalX := b.center.x + (b.center.x - user.x) * 0.3;
        var optimalZ := b.center.z + (b.center.z - user.z) * 0.3;
        Vec3(Clamp(optimalX, b.minX + WallMargin, b.maxX - WallMargin),
             floorHeight,
             Clamp(optimalZ, b.minZ + WallMargin, b.maxZ - WallMargin))
    }
  }

  /**
   * The head-movement estimator started by the manual room set-up: running
   * extremes that start at the origin, the samples taken so far, and the
   * tracker whose room it overwrites.
   */
  class MovementEstimator {
    const tracker: RoomTracker
    var minX: real
    var maxX: real
    var minZ: real
    var maxZ: real
    var positions: seq<Point>

    /** The running box holds the origin and every sample, and each extreme is 0 or a sampled coordinate. */
    ghost predicate Valid()
      reads this
    {
      && minX <= 0.0 <= maxX && minZ <= 0.0 <= maxZ
      && (forall i :: 0 <= i < |positions| ==>
            minX <= positions[i].x <= maxX && minZ <= positions[i].z <= maxZ)
      && (minX == 0.0 || exists i :: 0 <= i < |positions| && positions[i].x == minX)
      && (maxX == 0.0 || exists i :: 0 <= i < |positions| && positions[i].x == maxX)
      && (minZ == 0.0 || exists i :: 0 <= i < |positions| && positions[i].z == minZ)
      && (maxZ == 0.0 || exists i :: 0 <= i < |positions| && positions[i].z == maxZ)
    }

    constructor (tracker: RoomTracker)
      ensures Valid()
      ensures this.tracker == tracker && positions == []
      ensures minX == 0.0 && maxX == 0.0 && minZ == 0.0 && maxZ == 0.0
    {
      this.tracker := tracker;
      minX, maxX, minZ, maxZ := 0.0, 0.0, 0.0, 0.0;
      positions := [];
    }

    /**
     * One head-position sample.  From the eleventh sample on, the tracker's
     * room becomes the running box widened by 1 m; before that it is left alone.
     */
    method TrackMovement(position: Point)
      requires Valid()
      modifies this`minX, this`maxX, this`minZ, this`maxZ, this`positions, tracker`roomBounds
      ensures Valid()
      ensures positions == old(positions) + [position]
      ensures minX == Min(old(minX), position.x) && maxX == Max(old(maxX), position.x)
      ensures minZ == Min(old(minZ), position.z) && maxZ == Max(old(maxZ), position.z)
      ensures |positions| > 10 ==> tracker.roomBounds == Some(MovementEstimate(minX, maxX, minZ, maxZ))
      ensures |positions| <= 10 ==> tracker.roomBounds == old(tracker.roomBounds)
    {
      positions := positions + [position];
      minX := Min(minX, position.x);
      maxX := Max(maxX, position.x);
      minZ := Min(minZ, position.z);
      maxZ := Max(maxZ, position.z);
      ghost var last := |positions| - 1;
      assert positions[last] == position;
      assert forall i :: 0 <= i < last ==> positions[i] == old(positions)[i];
      if |positions| > 10 {
        tracker.roomBounds := Some(MovementEstimate(minX, maxX, minZ, maxZ));
      }
    }
  }

  /**
   * The estimate written by the movement sampler contains the origin and
   * keeps every sample at least 1 m inside each of its walls.
   */
  lemma {:induction false} MovementEstimateEnclosesSamples(e: MovementEstimator)
    requires e.Valid()
    ensures var b := MovementEstimate(e.minX, e.maxX, e.minZ, e.maxZ);
      && b.minX < 0.0 < b.maxX && b.minZ < 0.0 < b.maxZ
      && forall i :: 0 <= i < |e.positions| ==>
           b.minX + 1.0 <= e.positions[i].x <= b.maxX - 1.0
           && b.minZ + 1.0 <= e.positions[i].z <= b.maxZ - 1.0
  {
  }
}
