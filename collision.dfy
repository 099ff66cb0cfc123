/** The collision core: axis-aligned boxes, spheres, the six-slab room and the
    camera collider that every movement request is checked against.
    Distances are compared squared, so no square root is needed:
    `length(v) < r` is `r > 0 && |v|^2 < r^2` (lemma LengthBelowIffSquaredBelow). */
module Collision {
  import opened Vectors

  datatype AABB = AABB(min: Vec3, max: Vec3)

  datatype Sphere = Sphere(center: Vec3, radius: real)

  /** min <= max on every axis: the shape the room walls and obstacles have. */
  predicate WellFormed(b: AABB) {
    b.min.x <= b.max.x && b.min.y <= b.max.y && b.min.z <= b.max.z
  }

  /** AABB::contains: p lies in the closed box [min, max]; only a
      well-formed box contains anything. */
  function BoxContains(b: AABB, p: Vec3): (r: bool)
    ensures r ==> WellFormed(b)
  {
    p.x >= b.min.x && p.x <= b.max.x &&
    p.y >= b.min.y && p.y <= b.max.y &&
    p.z >= b.min.z && p.z <= b.max.z
  }

  /** AABB::intersects: the closed slab test on all three axes. For
      well-formed boxes it holds exactly when some point lies in both. */
  function BoxesIntersect(a: AABB, b: AABB): (r: bool)
    ensures WellFormed(a) && WellFormed(b) ==> (r <==> exists p :: BoxContains(a, p) && BoxContains(b, p))
  {
    var r := (a.min.x <= b.max.x && a.max.x >= b.min.x) &&
      (a.min.y <= b.max.y && a.max.y >= b.min.y) &&
      (a.min.z <= b.max.z && a.max.z >= b.min.z);
    if r && WellFormed(a) && WellFormed(b) then
      var p := Vec3(Max(a.min.x, b.min.x), Max(a.min.y, b.min.y), Max(a.min.z, b.min.z));
      assert BoxContains(a, p) && BoxContains(b, p);
      r
    else r
  }

  /** AABB::updatePosition: the box moved by `offset` (the struct is a value). */
  function ShiftBox(b: AABB, offset: Vec3): (r: AABB)
    ensures Sub(r.max, r.min) == Sub(b.max, b.min)
    ensures WellFormed(r) <==> WellFormed(b)
    ensures forall p :: BoxContains(b, p) <==> BoxContains(r, Add(p, offset))
  {
    AABB(Add(b.min, offset), Add(b.max, offset))
  }

  /** glm::clamp(center, box.min, box.max): the point of the box nearest to p. */
  function ClosestPoint(p: Vec3, b: AABB): (q: Vec3)
    ensures WellFormed(b) ==> BoxContains(b, q)
    ensures BoxContains(b, p) ==> q == p
  {
    Vec3(Clamp(p.x, b.min.x, b.max.x), Clamp(p.y, b.min.y, b.max.y), Clamp(p.z, b.min.z, b.max.z))
  }

  /** Sphere::intersects(Sphere): centre distance strictly below the sum of
      radii. Spheres with a common centre meet exactly when the radii add
      up to more than 0. */
  function SpheresIntersect(a: Sphere, b: Sphere): (hit: bool)
    ensures hit ==> a.radius + b.radius > 0.0
    ensures a.center == b.center ==> (hit <==> a.radius + b.radius > 0.0)
  {
    var r := a.radius + b.radius;
    if a.center == b.center && r > 0.0 then
      SameCentreWithin(a.center, r);
      r > 0.0 && DistSq(a.center, b.center) < r * r
    else
      r > 0.0 && DistSq(a.center, b.center) < r * r
  }

  /** A point is nearer to itself than any positive distance. */
  lemma SameCentreWithin(c: Vec3, r: real)
    requires r > 0.0
    ensures DistSq(c, c) < r * r
  {
    DistSqSelf(c);
    BelowPosMul(DistSq(c, c), r, r);
  }

  /** Sphere::intersects(AABB): distance to the clamped closest point strictly
      below the radius. A sphere whose centre is in the box hits it exactly
      when its radius is positive; touching is not hitting. */
  function SphereHitsBox(s: Sphere, b: AABB): (hit: bool)
    ensures hit ==> s.radius > 0.0
    ensures BoxContains(b, s.center) ==> (hit <==> s.radius > 0.0)
  {
    var q := ClosestPoint(s.center, b);
    if BoxContains(b, s.center) && s.radius > 0.0 then
      assert q == s.center;
      SameCentreWithin(s.center, s.radius);
      s.radius > 0.0 && DistSq(s.center, q) < s.radius * s.radius
    else
      s.radius > 0.0 && DistSq(s.center, q) < s.radius * s.radius
  }

  /** A point is at distance 0 from itself. */
  lemma DistSqSelf(p: Vec3)
    ensures DistSq(p, p) == 0.0
  {
    assert Sub(p, p) == Zero3;
  }

  /** Justifies the squared comparison: for any non-negative `len` with
      len * len == d (that is, len = sqrt(d)), `len < r` exactly when r > 0 and d < r * r. */
  lemma LengthBelowIffSquaredBelow(len: real, d: real, r: real)
    requires len >= 0.0 && len * len == d
    ensures len < r <==> (r > 0.0 && d < r * r)
  {
    if len < r {
      SquareStrictMono(len, r);
    } else if r > 0.0 {
      SquareMono(r, len);
    }
  }

  lemma PosMul(x: real, y: real)
    requires x > 0.0 && y > 0.0
    ensures x * y > 0.0
  {
  }

  lemma BelowPosMul(d: real, x: real, y: real)
    requires d <= 0.0 && x > 0.0 && y > 0.0
    ensures d < x * y
  {
  }

  lemma NonNegMul(x: real, y: real)
    requires x >= 0.0 && y >= 0.0
    ensures x * y >= 0.0
  {
  }

  lemma SquareStrictMono(a: real, b: real)
    requires 0.0 <= a < b
    ensures a * a < b * b
  {
    PosMul(b - a, b + a);
    assert (b - a) * (b + a) == b * b - a * a;
  }

  lemma SquareMono(a: real, b: real)
    requires 0.0 <= a <= b
    ensures a * a <= b * b
  {
    NonNegMul(b - a, b + a);
    assert (b - a) * (b + a) == b * b - a * a;
  }

  lemma BoxesIntersectSymmetric(a: AABB, b: AABB)
    ensures BoxesIntersect(a, b) <==> BoxesIntersect(b, a)
  {
  }

  lemma WellFormedBoxIntersectsItself(a: AABB)
    requires WellFormed(a)
    ensures BoxesIntersect(a, a)
  {
  }

  lemma SpheresIntersectSymmetric(a: Sphere, b: Sphere)
    ensures SpheresIntersect(a, b) <==> SpheresIntersect(b, a)
  {
    assert DistSq(a.center, b.center) == DistSq(b.center, a.center);
  }

  /** Touching (distance equal to the radius) is not a collision. */
  lemma TouchingIsNotCollision(s: Sphere, b: AABB)
    requires DistSq(s.center, ClosestPoint(s.center, b)) == s.radius * s.radius
    ensures !SphereHitsBox(s, b)
  {
  }

  /** Some box of the list is hit by the sphere. */
  predicate AnyHit(boxes: seq<AABB>, s: Sphere) {
    exists k :: 0 <= k < |boxes| && SphereHitsBox(s, boxes[k])
  }

  /** A sphere hits a box of a + b exactly when it hits a box of a or one of b. */
  lemma AnyHitOfConcat(a: seq<AABB>, b: seq<AABB>, s: Sphere)
    ensures AnyHit(a + b, s) <==> AnyHit(a, s) || AnyHit(b, s)
  {
    if AnyHit(a, s) {
      var k :| 0 <= k < |a| && SphereHitsBox(s, a[k]);
      assert (a + b)[k] == a[k];
    }
    if AnyHit(b, s) {
      var k :| 0 <= k < |b| && SphereHitsBox(s, b[k]);
      assert (a + b)[|a| + k] == b[k];
    }
    if AnyHit(a + b, s) {
      var k :| 0 <= k < |a + b| && SphereHitsBox(s, (a + b)[k]);
      if k < |a| {
        assert (a + b)[k] == a[k];
      } else {
        assert (a + b)[k] == b[k - |a|];
      }
    }
  }

  /** What checkCameraCollision decides for a collider of radius r placed at p:
      some wall or box obstacle, in one list walls then obstacles, is hit
      (sphere obstacles are never consulted). Only a collider of positive
      radius collides. */
  function Collides(walls: seq<AABB>, obstacles: seq<AABB>, r: real, p: Vec3): (hit: bool)
    ensures hit <==> exists k :: 0 <= k < |walls + obstacles| && SphereHitsBox(Sphere(p, r), (walls + obstacles)[k])
    ensures hit ==> r > 0.0
  {
    AnyHitOfConcat(walls, obstacles, Sphere(p, r));
    AnyHit(walls, Sphere(p, r)) || AnyHit(obstacles, Sphere(p, r))
  }

  // The room initializeWalls builds.
  const ROOM_CENTER: Vec3 := Vec3(0.0, 10.1, 0.0)
  const ROOM_HALF_SIZE: real := 8.6
  const WALL_THICKNESS: real := 2.0
  /** Radius the constructor gives the camera collider. */
  const CAMERA_COLLIDER_RADIUS: real := 1.3
  /** m_cameraRadius: initialised and never read. */
  const UNUSED_CAMERA_RADIUS: real := 0.3

  /** The six slabs around the cube of half-size h centred on c, each t thick,
      in the order left, right, front, back, floor, ceiling. */
  function RoomWalls(c: Vec3, h: real, t: real): (ws: seq<AABB>)
    ensures |ws| == 6
    ensures h >= 0.0 && t >= 0.0 ==> forall k :: 0 <= k < 6 ==> WellFormed(ws[k])
  {
    var minX, maxX := c.x - h, c.x + h;
    var minY, maxY := c.y - h, c.y + h;
    var minZ, maxZ := c.z - h, c.z + h;
    [ AABB(Vec3(minX - t, minY, minZ), Vec3(minX, maxY, maxZ)),
      AABB(Vec3(maxX, minY, minZ), Vec3(maxX + t, maxY, maxZ)),
      AABB(Vec3(minX, minY, minZ - t), Vec3(maxX, maxY, minZ)),
      AABB(Vec3(minX, minY, maxZ), Vec3(maxX, maxY, maxZ + t)),
      AABB(Vec3(minX, minY - t, minZ), Vec3(maxX, minY, maxZ)),
      AABB(Vec3(minX, maxY, minZ), Vec3(maxX, maxY + t, maxZ)) ]
  }

  /** The walls of the room the source builds. */
  function DefaultWalls(): seq<AABB> {
    RoomWalls(ROOM_CENTER, ROOM_HALF_SIZE, WALL_THICKNESS)
  }

  /** The per-axis rejection of calculateSliding: each component of the
      movement survives when moving along that axis alone is free. */
  function SlideAxes(walls: seq<AABB>, obstacles: seq<AABB>, r: real, m: Vec3, cur: Vec3): (res: Vec3)
    ensures res.x == (if Collides(walls, obstacles, r, Add(cur, Vec3(m.x, 0.0, 0.0))) then 0.0 else m.x)
    ensures res.y == (if Collides(walls, obstacles, r, Add(cur, Vec3(0.0, m.y, 0.0))) then 0.0 else m.y)
    ensures res.z == (if Collides(walls, obstacles, r, Add(cur, Vec3(0.0, 0.0, m.z))) then 0.0 else m.z)
  {
    var xOnly, yOnly, zOnly := Vec3(m.x, 0.0, 0.0), Vec3(0.0, m.y, 0.0), Vec3(0.0, 0.0, m.z);
    var acc0 := Zero3;
    var acc1 := if !Collides(walls, obstacles, r, Add(cur, xOnly)) then Add(acc0, xOnly) else acc0;
    var acc2 := if !Collides(walls, obstacles, r, Add(cur, yOnly)) then Add(acc1, yOnly) else acc1;
    if !Collides(walls, obstacles, r, Add(cur, zOnly)) then Add(acc2, zOnly) else acc2
  }

  /** What getSafeMovement returns: the movement itself when the target is
      free, the per-axis slide otherwise. */
  function SafeMovement(walls: seq<AABB>, obstacles: seq<AABB>, r: real, m: Vec3, cur: Vec3): (res: Vec3)
    ensures !Collides(walls, obstacles, r, Add(cur, m)) ==> res == m
    ensures Collides(walls, obstacles, r, Add(cur, m)) ==> res == SlideAxes(walls, obstacles, r, m, cur)
  {
    if !Collides(walls, obstacles, r, Add(cur, m)) then m else SlideAxes(walls, obstacles, r, m, cur)
  }

  /** A blocked axis contributes exactly nothing; with every axis blocked the
      result is the zero vector. */
  lemma BlockedAxesContributeNothing(walls: seq<AABB>, obstacles: seq<AABB>, r: real, m: Vec3, cur: Vec3)
    requires Collides(walls, obstacles, r, Add(cur, m))
    requires Collides(walls, obstacles, r, Add(cur, Vec3(m.x, 0.0, 0.0)))
    requires Collides(walls, obstacles, r, Add(cur, Vec3(0.0, m.y, 0.0)))
    requires Collides(walls, obstacles, r, Add(cur, Vec3(0.0, 0.0, m.z)))
    ensures SafeMovement(walls, obstacles, r, m, cur) == Zero3
  {
  }

  /** A collider of radius 1.3 at p that no wall reaches collides with nothing
      when there are no obstacles. */
  lemma NoWallHit(ws: seq<AABB>, p: Vec3)
    requires |ws| == 6 && MissesSix(ws, p)
    ensures !Collides(ws, [], CAMERA_COLLIDER_RADIUS, p)
  {
    forall k | 0 <= k < |ws| ensures !SphereHitsBox(Sphere(p, CAMERA_COLLIDER_RADIUS), ws[k]) {
      if k == 0 {
      } else if k == 1 {
      } else if k == 2 {
      } else if k == 3 {
      } else if k == 4 {
      }
    }
    assert ws + [] == ws;
  }

  /** The collider of radius 1.3 at p misses each of the six walls. */
  predicate MissesSix(ws: seq<AABB>, p: Vec3)
    requires |ws| == 6
  {
    var s := Sphere(p, CAMERA_COLLIDER_RADIUS);
    !SphereHitsBox(s, ws[0]) && !SphereHitsBox(s, ws[1]) && !SphereHitsBox(s, ws[2]) &&
    !SphereHitsBox(s, ws[3]) && !SphereHitsBox(s, ws[4]) && !SphereHitsBox(s, ws[5])
  }

  /** The collider of radius 1.3 at p misses box b, whose point nearest p is q. */
  lemma MissesAt(p: Vec3, b: AABB, q: Vec3, d: real)
    requires ClosestPoint(p, b) == q && DistSq(p, q) == d && d >= 1.69
    ensures !SphereHitsBox(Sphere(p, CAMERA_COLLIDER_RADIUS), b)
  {
  }

  /** The collider of radius 1.3 at p hits box b, whose point nearest p is q. */
  lemma HitsAt(p: Vec3, b: AABB, q: Vec3, d: real)
    requires ClosestPoint(p, b) == q && DistSq(p, q) == d && d < 1.69
    ensures SphereHitsBox(Sphere(p, CAMERA_COLLIDER_RADIUS), b)
  {
  }

  /** The camera's starting point, the room centre, is free of the walls. */
  lemma RoomCentreIsFree()
    ensures !Collides(DefaultWalls(), [], CAMERA_COLLIDER_RADIUS, ROOM_CENTER)
  {
    CentreMissesWalls();
    NoWallHit(DefaultWalls(), ROOM_CENTER);
  }

  /** Each wall is at least 8.6 from the room centre. */
  lemma CentreMissesWalls()
    ensures MissesSix(DefaultWalls(), ROOM_CENTER)
  {
    var ws := DefaultWalls();
    var p := ROOM_CENTER;
    MissesAt(p, ws[0], Vec3(-8.6, 10.1, 0.0), 73.96);
    MissesAt(p, ws[1], Vec3(8.6, 10.1, 0.0), 73.96);
    MissesAt(p, ws[2], Vec3(0.0, 10.1, -8.6), 73.96);
    MissesAt(p, ws[3], Vec3(0.0, 10.1, 8.6), 73.96);
    MissesAt(p, ws[4], Vec3(0.0, 1.5, 0.0), 73.96);
    MissesAt(p, ws[5], Vec3(0.0, 18.7, 0.0), 73.96);
  }


  /** Only the target of a movement is tested: a jump of 100 along x from the
      centre lands beyond the right wall, and since nothing is there the
      movement is returned whole, so the camera passes through the wall. */
  lemma LongStepPassesThroughWall()
    ensures Add(ROOM_CENTER, Vec3(100.0, 0.0, 0.0)).x > ROOM_CENTER.x + ROOM_HALF_SIZE + WALL_THICKNESS
    ensures SafeMovement(DefaultWalls(), [], CAMERA_COLLIDER_RADIUS, Vec3(100.0, 0.0, 0.0), ROOM_CENTER) == Vec3(100.0, 0.0, 0.0)
    ensures !PathFree(DefaultWalls(), [], CAMERA_COLLIDER_RADIUS, ROOM_CENTER, Vec3(100.0, 0.0, 0.0))
  {
    LongStepPathBlocked();
    LongStepTargetFree();
    LongStepLanding();
    FreeTargetKept(DefaultWalls(), [], CAMERA_COLLIDER_RADIUS, Vec3(100.0, 0.0, 0.0), ROOM_CENTER, Vec3(100.0, 10.1, 0.0));
  }

  /** The long jump lands at (100, 10.1, 0), past the right wall's outer face at x = 10.6. */
  lemma LongStepLanding()
    ensures Add(ROOM_CENTER, Vec3(100.0, 0.0, 0.0)) == Vec3(100.0, 10.1, 0.0)
    ensures Add(ROOM_CENTER, Vec3(100.0, 0.0, 0.0)).x > ROOM_CENTER.x + ROOM_HALF_SIZE + WALL_THICKNESS
  {
  }

  /** A movement whose target q is free is returned whole. */
  lemma FreeTargetKept(walls: seq<AABB>, obstacles: seq<AABB>, r: real, m: Vec3, cur: Vec3, q: Vec3)
    requires Add(cur, m) == q && !Collides(walls, obstacles, r, q)
    ensures SafeMovement(walls, obstacles, r, m, cur) == m
  {
  }

  /** The point a fraction t of the way along the movement m from cur. */
  function PointAlong(cur: Vec3, m: Vec3, t: real): Vec3 {
    Add(cur, Scale(m, t))
  }

  /** Every point on the segment from cur to cur + m is free. */
  ghost predicate PathFree(walls: seq<AABB>, obstacles: seq<AABB>, r: real, cur: Vec3, m: Vec3) {
    forall t :: 0.0 <= t <= 1.0 ==> !Collides(walls, obstacles, r, PointAlong(cur, m, t))
  }

  /** getSafeMovement as evidently intended: the whole segment of a movement,
      not only its end, must be free, and so must each axis move that
      sliding keeps. */
  ghost function SweptSafeMovement(walls: seq<AABB>, obstacles: seq<AABB>, r: real, m: Vec3, cur: Vec3): (res: Vec3)
    ensures PathFree(walls, obstacles, r, cur, m) ==> res == m
    ensures PathFree(walls, obstacles, r, cur, res) || (
      (res.x == 0.0 || PathFree(walls, obstacles, r, cur, Vec3(res.x, 0.0, 0.0))) &&
      (res.y == 0.0 || PathFree(walls, obstacles, r, cur, Vec3(0.0, res.y, 0.0))) &&
      (res.z == 0.0 || PathFree(walls, obstacles, r, cur, Vec3(0.0, 0.0, res.z))))
  {
    if PathFree(walls, obstacles, r, cur, m) then m
    else
      Vec3(if PathFree(walls, obstacles, r, cur, Vec3(m.x, 0.0, 0.0)) then m.x else 0.0,
           if PathFree(walls, obstacles, r, cur, Vec3(0.0, m.y, 0.0)) then m.y else 0.0,
           if PathFree(walls, obstacles, r, cur, Vec3(0.0, 0.0, m.z)) then m.z else 0.0)
  }

  /** The jump of 100 along x crosses the right wall: a tenth of the way,
      at (10, 10.1, 0), the collider's centre is inside the wall. */
  lemma LongStepPathBlocked()
    ensures !PathFree(DefaultWalls(), [], CAMERA_COLLIDER_RADIUS, ROOM_CENTER, Vec3(100.0, 0.0, 0.0))
  {
    WallHitAtTenth();
    TenthOfLongStep();
    BlockedAtTenth(DefaultWalls(), ROOM_CENTER, Vec3(100.0, 0.0, 0.0));
  }

  /** A movement whose tenth point is (10, 10.1, 0), where the walls are hit, is blocked. */
  lemma BlockedAtTenth(ws: seq<AABB>, cur: Vec3, m: Vec3)
    requires PointAlong(cur, m, 0.1) == Vec3(10.0, 10.1, 0.0)
    requires Collides(ws, [], CAMERA_COLLIDER_RADIUS, Vec3(10.0, 10.1, 0.0))
    ensures !PathFree(ws, [], CAMERA_COLLIDER_RADIUS, cur, m)
  {
    BlockedPoint(ws, [], CAMERA_COLLIDER_RADIUS, cur, m, 0.1, Vec3(10.0, 10.1, 0.0));
  }

  /** A tenth of the way along the long jump is (10, 10.1, 0). */
  lemma TenthOfLongStep()
    ensures PointAlong(ROOM_CENTER, Vec3(100.0, 0.0, 0.0), 0.1) == Vec3(10.0, 10.1, 0.0)
  {
  }

  /** One colliding point on the segment makes the path not free. */
  lemma BlockedPoint(walls: seq<AABB>, obstacles: seq<AABB>, r: real, cur: Vec3, m: Vec3, t: real, q: Vec3)
    requires 0.0 <= t <= 1.0 && PointAlong(cur, m, t) == q && Collides(walls, obstacles, r, q)
    ensures !PathFree(walls, obstacles, r, cur, m)
  {
  }

  /** At (10, 10.1, 0) the collider's centre lies inside the right wall. */
  lemma WallHitAtTenth()
    ensures Collides(DefaultWalls(), [], CAMERA_COLLIDER_RADIUS, Vec3(10.0, 10.1, 0.0))
  {
    var p := Vec3(10.0, 10.1, 0.0);
    RightWallSpan();
    ContainedCollides(DefaultWalls(), 1, p);
  }

  /** A collider of radius 1.3 whose centre lies in a wall collides. */
  lemma ContainedCollides(ws: seq<AABB>, k: nat, p: Vec3)
    requires k < |ws| && BoxContains(ws[k], p)
    ensures Collides(ws, [], CAMERA_COLLIDER_RADIUS, p)
  {
    assert SphereHitsBox(Sphere(p, CAMERA_COLLIDER_RADIUS), ws[k]);
    assert (ws + [])[k] == ws[k];
  }

  /** The right wall spans x in [8.6, 10.6], y in [1.5, 18.7], z in [-8.6, 8.6]. */
  lemma RightWallSpan()
    ensures DefaultWalls()[1].min == Vec3(8.6, 1.5, -8.6)
    ensures DefaultWalls()[1].max == Vec3(10.6, 18.7, 8.6)
  {
  }

  /** With the whole path tested the long jump is refused outright: no axis
      of it is free either. */
  lemma SweptStopsLongStep()
    ensures SweptSafeMovement(DefaultWalls(), [], CAMERA_COLLIDER_RADIUS, Vec3(100.0, 0.0, 0.0), ROOM_CENTER) == Zero3
  {
    LongStepPathBlocked();
  }

  lemma LongStepTargetFree()
    ensures !Collides(DefaultWalls(), [], CAMERA_COLLIDER_RADIUS, Vec3(100.0, 10.1, 0.0))
  {
    TargetMissesWalls();
    NoWallHit(DefaultWalls(), Vec3(100.0, 10.1, 0.0));
  }

  /** Every wall is far from (100, 10.1, 0), the landing point of the long jump. */
  lemma TargetMissesWalls()
    ensures MissesSix(DefaultWalls(), Vec3(100.0, 10.1, 0.0))
  {
    var ws := DefaultWalls();
    var p := Vec3(100.0, 10.1, 0.0);
    MissesAt(p, ws[0], Vec3(-8.6, 10.1, 0.0), 11793.96);
    MissesAt(p, ws[1], Vec3(10.6, 10.1, 0.0), 7992.36);
    MissesAt(p, ws[2], Vec3(8.6, 10.1, -8.6), 8427.92);
    MissesAt(p, ws[3], Vec3(8.6, 10.1, 8.6), 8427.92);
    MissesAt(p, ws[4], Vec3(8.6, 1.5, 0.0), 8427.92);
    MissesAt(p, ws[5], Vec3(8.6, 18.7, 0.0), 8427.92);
  }


  /** The i-th of raycast's samples: origin + direction * (maxDistance / 20 * i). */
  function RaySample(origin: Vec3, direction: Vec3, maxDistance: real, i: int): Vec3 {
    Add(origin, Scale(direction, (maxDistance / RAY_STEPS as real) * i as real))
  }

  const RAY_STEPS: int := 20

  /** The collision manager: room walls, box obstacles, sphere obstacles (kept,
      never tested) and the camera collider whose centre every query moves. */
  class CollisionManager {
    var walls: seq<AABB>
    var obstacles: seq<AABB>
    var cameraCollider: Sphere
    var sphereObstacles: seq<Sphere>
    var cameraRadiusSetting: real

    constructor ()
      ensures walls == DefaultWalls() && obstacles == [] && sphereObstacles == []
      ensures cameraCollider.radius == CAMERA_COLLIDER_RADIUS
      ensures cameraRadiusSetting == UNUSED_CAMERA_RADIUS
    {
      obstacles := [];
      sphereObstacles := [];
      cameraRadiusSetting := UNUSED_CAMERA_RADIUS;
      cameraCollider := Sphere(Zero3, CAMERA_COLLIDER_RADIUS);
      walls := DefaultWalls();
    }

    /** Clears the wall list and pushes the six room slabs. */
    method InitializeWalls()
      modifies this`walls
      ensures walls == DefaultWalls()
    {
      walls := [];
      var ws := DefaultWalls();
      var k := 0;
      while k < 6
        invariant 0 <= k <= 6
        invariant walls == ws[..k]
      {
        walls := walls + [ws[k]];
        k := k + 1;
      }
    }

    method AddObstacle(b: AABB)
      modifies this`obstacles
      ensures obstacles == old(obstacles) + [b]
    {
      obstacles := obstacles + [b];
    }

    method ClearObstacles()
      modifies this`obstacles
      ensures obstacles == []
    {
      obstacles := [];
    }

    function GetCameraRadius(): (r: real)
      reads this
      ensures r == cameraCollider.radius
    {
      cameraCollider.radius
    }

    method SetCameraRadius(r: real)
      modifies this`cameraCollider
      ensures cameraCollider == old(cameraCollider).(radius := r)
    {
      cameraCollider := cameraCollider.(radius := r);
    }

    function WallCount(): (n: nat)
      reads this
      ensures n == |walls|
    {
      |walls|
    }

    function ObstacleCount(): (n: nat)
      reads this
      ensures n == |obstacles|
    {
      |obstacles|
    }

    /** Moves the collider to p and tests it against every wall, then every
        obstacle, stopping at the first hit. */
    method CheckCameraCollision(p: Vec3) returns (hit: bool)
      modifies this`cameraCollider
      ensures cameraCollider == Sphere(p, old(cameraCollider.radius))
      ensures hit == Collides(walls, obstacles, cameraCollider.radius, p)
    {
      cameraCollider := cameraCollider.(center := p);
      var i := 0;
      while i < |walls|
        invariant 0 <= i <= |walls|
        invariant forall k :: 0 <= k < i ==> !SphereHitsBox(cameraCollider, walls[k])
      {
        if SphereHitsBox(cameraCollider, walls[i]) {
          return true;
        }
        i := i + 1;
      }
      var j := 0;
      while j < |obstacles|
        invariant 0 <= j <= |obstacles|
        invariant forall k :: 0 <= k < j ==> !SphereHitsBox(cameraCollider, obstacles[k])
      {
        if SphereHitsBox(cameraCollider, obstacles[j]) {
          return true;
        }
        j := j + 1;
      }
      return false;
    }

    /** calculateSliding: the movement if its target is free, otherwise the sum
        of the axis-only moves that are each free. */
    method CalculateSliding(m: Vec3, cur: Vec3) returns (res: Vec3)
      modifies this`cameraCollider
      ensures cameraCollider.radius == old(cameraCollider.radius)
      ensures res == (if Collides(walls, obstacles, cameraCollider.radius, Add(cur, m)) then SlideAxes(walls, obstacles, cameraCollider.radius, m, cur) else m)
    {
      var blocked := CheckCameraCollision(Add(cur, m));
      if !blocked {
        return m;
      }
      var xOnly, yOnly, zOnly := Vec3(m.x, 0.0, 0.0), Vec3(0.0, m.y, 0.0), Vec3(0.0, 0.0, m.z);
      res := Zero3;
      blocked := CheckCameraCollision(Add(cur, xOnly));
      if !blocked {
        res := Add(res, xOnly);
      }
      blocked := CheckCameraCollision(Add(cur, yOnly));
      if !blocked {
        res := Add(res, yOnly);
      }
      blocked := CheckCameraCollision(Add(cur, zOnly));
      if !blocked {
        res := Add(res, zOnly);
      }
    }

    /** getSafeMovement: the fast path when the target is free, sliding otherwise. */
    method GetSafeMovement(m: Vec3, cur: Vec3) returns (res: Vec3)
      modifies this`cameraCollider
      ensures cameraCollider.radius == old(cameraCollider.radius)
      ensures res == SafeMovement(walls, obstacles, cameraCollider.radius, m, cur)
    {
      var blocked := CheckCameraCollision(Add(cur, m));
      if !blocked {
        return m;
      }
      res := CalculateSliding(m, cur);
    }

    /** raycast: tests the 20 samples origin + direction * (maxDistance / 20 * i),
        i = 1..20, in order; on the first colliding one it writes it to the hit
        point and answers true, otherwise the hit point is left as it was. */
    method Raycast(origin: Vec3, direction: Vec3, maxDistance: real, hitPoint: Vec3) returns (hit: bool, hitPointOut: Vec3)
      modifies this`cameraCollider
      ensures cameraCollider.radius == old(cameraCollider.radius)
      ensures hit <==> exists i :: 1 <= i <= RAY_STEPS && Collides(walls, obstacles, cameraCollider.radius, RaySample(origin, direction, maxDistance, i))
      ensures !hit ==> hitPointOut == hitPoint
      ensures hit ==> exists i :: (1 <= i <= RAY_STEPS && hitPointOut == RaySample(origin, direction, maxDistance, i)
        && Collides(walls, obstacles, cameraCollider.radius, hitPointOut)
        && forall j :: 1 <= j < i ==> !Collides(walls, obstacles, cameraCollider.radius, RaySample(origin, direction, maxDistance, j)))
    {
      hitPointOut := hitPoint;
      var i := 1;
      while i <= RAY_STEPS
        invariant 1 <= i <= RAY_STEPS + 1
        invariant cameraCollider.radius == old(cameraCollider.radius)
        invariant forall j :: 1 <= j < i ==> !Collides(walls, obstacles, cameraCollider.radius, RaySample(origin, direction, maxDistance, j))
      {
        var testPos := RaySample(origin, direction, maxDistance, i);
        var blocked := CheckCameraCollision(testPos);
        if blocked {
          return true, testPos;
        }
        i := i + 1;
      }
      return false, hitPointOut;
    }
  }
}
