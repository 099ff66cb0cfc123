/** CCamera: an orbit camera kept in spherical coordinates (theta, phi,
    radius) about a centre, with a perspective or orthographic projection and
    dirty flags that defer recomputing the view-projection product. */
module Camera {
  import opened Vectors
  import opened Collision

  datatype ProjectionType = PerspectiveProjection | OrthographicProjection

  /** Spherical coordinates of the eye about the centre. */
  datatype Orbit = Orbit(theta: real, phi: real, radius: real)

  /** Below this distance the eye counts as sitting on the centre. */
  const DEGENERATE_RADIUS: real := 0.00001
  /** The smallest radius zooming and updateRadius allow. */
  const MIN_RADIUS: real := 1.0
  /** processMouseMovement keeps phi this far from the poles. */
  const PHI_MARGIN: real := 0.1

  /** The spherical coordinates updateView, updateCenter and updateViewCenter
      derive from offset = view - center: a degenerate offset gives radius 1,
      theta 0, phi pi/2; otherwise theta = -atan2(-z, x) and
      phi = acos(clamp(y / radius, -1, 1)). */
  function OrbitOf(m: Math, offset: Vec3): (o: Orbit)
    ensures o.radius >= DEGENERATE_RADIUS
    ensures Length(m, offset) < DEGENERATE_RADIUS ==> o == Orbit(0.0, PI / 2.0, 1.0)
    ensures Length(m, offset) >= DEGENERATE_RADIUS ==> (o.radius == Length(m, offset)
      && o.theta == -m.atan2(-offset.z, offset.x)
      && o.phi == m.acos(Clamp(offset.y / o.radius, -1.0, 1.0)))
  {
    var r := Length(m, offset);
    if r < DEGENERATE_RADIUS then Orbit(0.0, PI / 2.0, 1.0)
    else Orbit(-m.atan2(-offset.z, offset.x), m.acos(Clamp(offset.y / r, -1.0, 1.0)), r)
  }

  /** updateViewMatrix(theta, phi): the eye placed on the sphere of the given
      radius about the centre. */
  function SphericalView(m: Math, center: Vec3, radius: real, theta: real, phi: real): Vec3 {
    Vec3(center.x + radius * m.sin(phi) * m.cos(theta),
         center.y + radius * m.cos(phi),
         center.z + radius * m.sin(phi) * m.sin(theta))
  }

  /** sin and cos obey sin^2 + cos^2 = 1. */
  ghost predicate Pythagorean(m: Math) {
    forall a {:trigger m.sin(a)} :: m.sin(a) * m.sin(a) + m.cos(a) * m.cos(a) == 1.0
  }

  /** With genuine sine and cosine, the placed eye is exactly `radius` away
      from the centre. */
  lemma SphericalViewAtRadius(m: Math, center: Vec3, radius: real, theta: real, phi: real)
    requires Pythagorean(m)
    ensures DistSq(SphericalView(m, center, radius, theta, phi), center) == radius * radius
  {
    var sp, cp, st, ct := m.sin(phi), m.cos(phi), m.sin(theta), m.cos(theta);
    assert sp * sp + cp * cp == 1.0;
    assert st * st + ct * ct == 1.0;
    var d := Sub(SphericalView(m, center, radius, theta, phi), center);
    assert d == Vec3(radius * sp * ct, radius * cp, radius * sp * st);
    calc {
      Dot(d, d);
      (radius * sp * ct) * (radius * sp * ct) + (radius * cp) * (radius * cp) + (radius * sp * st) * (radius * sp * st);
      { SquareOfProduct(radius * sp, ct); SquareOfProduct(radius * sp, st); SquareOfProduct(radius, cp); }
      (radius * sp) * (radius * sp) * (ct * ct) + radius * radius * (cp * cp) + (radius * sp) * (radius * sp) * (st * st);
      { Distribute((radius * sp) * (radius * sp), ct * ct, st * st); }
      (radius * sp) * (radius * sp) * (ct * ct + st * st) + radius * radius * (cp * cp);
      (radius * sp) * (radius * sp) + radius * radius * (cp * cp);
      { SquareOfProduct(radius, sp); }
      radius * radius * (sp * sp) + radius * radius * (cp * cp);
      { Distribute(radius * radius, sp * sp, cp * cp); }
      radius * radius * (sp * sp + cp * cp);
      radius * radius;
    }
  }

  lemma SquareOfProduct(a: real, b: real)
    ensures (a * b) * (a * b) == (a * a) * (b * b)
  {
  }

  lemma Distribute(a: real, b: real, c: real)
    ensures a * b + a * c == a * (b + c)
  {
  }

  /** processMouseMovement's clamp of phi into [0.1, pi - 0.1]. */
  function ClampPhi(phi: real): (r: real)
    ensures PHI_MARGIN <= r <= PI - PHI_MARGIN
    ensures PHI_MARGIN <= phi <= PI - PHI_MARGIN ==> r == phi
  {
    var p := if phi < PHI_MARGIN then PHI_MARGIN else phi;
    if p > PI - PHI_MARGIN then PI - PHI_MARGIN else p
  }

  /** The eye and radius updateRadius settles on: the radius grows by delta
      (at least 1), the eye is moved towards the matching spherical position by
      exactly the collision manager's safe movement, and the radius is
      re-measured; if it fell below 1 the eye is re-placed at radius 1. */
  function RadiusUpdate(m: Math, walls: seq<AABB>, obstacles: seq<AABB>, collider: real,
                        view: Vec3, center: Vec3, o: Orbit, delta: real): (r: (Vec3, real))
    ensures r.1 >= MIN_RADIUS
  {
    var r0 := if o.radius + delta < MIN_RADIUS then MIN_RADIUS else o.radius + delta;
    var potential := SphericalView(m, center, r0, o.theta, o.phi);
    var safe := SafeMovement(walls, obstacles, collider, Sub(potential, view), view);
    var moved := Add(view, safe);
    var r1 := Length(m, Sub(moved, center));
    if r1 < MIN_RADIUS then (SphericalView(m, center, MIN_RADIUS, o.theta, o.phi), MIN_RADIUS)
    else (moved, r1)
  }

  /** When nothing blocks the zoomed position and it is at least 1 from the
      centre, updateRadius puts the eye exactly there. */
  lemma FreeZoomReachesTarget(m: Math, walls: seq<AABB>, obstacles: seq<AABB>, collider: real,
                              view: Vec3, center: Vec3, o: Orbit, delta: real)
    requires o.radius + delta >= MIN_RADIUS
    requires var potential := SphericalView(m, center, o.radius + delta, o.theta, o.phi);
      !Collides(walls, obstacles, collider, potential) && Length(m, Sub(potential, center)) >= MIN_RADIUS
    ensures RadiusUpdate(m, walls, obstacles, collider, view, center, o, delta).0
      == SphericalView(m, center, o.radius + delta, o.theta, o.phi)
  {
    var potential := SphericalView(m, center, o.radius + delta, o.theta, o.phi);
    assert Add(view, Sub(potential, view)) == potential;
  }

  /** When every axis of the move is blocked the eye stays where it was
      (unless that is closer than 1 to the centre). */
  lemma BlockedZoomStays(m: Math, walls: seq<AABB>, obstacles: seq<AABB>, collider: real,
                         view: Vec3, center: Vec3, o: Orbit, delta: real)
    requires var r0 := if o.radius + delta < MIN_RADIUS then MIN_RADIUS else o.radius + delta;
      var mv := Sub(SphericalView(m, center, r0, o.theta, o.phi), view);
      Collides(walls, obstacles, collider, Add(view, mv)) &&
      Collides(walls, obstacles, collider, Add(view, Vec3(mv.x, 0.0, 0.0))) &&
      Collides(walls, obstacles, collider, Add(view, Vec3(0.0, mv.y, 0.0))) &&
      Collides(walls, obstacles, collider, Add(view, Vec3(0.0, 0.0, mv.z)))
    requires Length(m, Sub(view, center)) >= MIN_RADIUS
    ensures RadiusUpdate(m, walls, obstacles, collider, view, center, o, delta) == (view, Length(m, Sub(view, center)))
  {
    var r0 := if o.radius + delta < MIN_RADIUS then MIN_RADIUS else o.radius + delta;
    var mv := Sub(SphericalView(m, center, r0, o.theta, o.phi), view);
    BlockedAxesContributeNothing(walls, obstacles, collider, mv, view);
    NoMovementStays(m, walls, obstacles, collider, view, center, o, delta);
  }

  /** updateRadius leaves the eye in place when the safe movement is zero and
      the eye is at least 1 from the centre. */
  lemma NoMovementStays(m: Math, walls: seq<AABB>, obstacles: seq<AABB>, collider: real,
                        view: Vec3, center: Vec3, o: Orbit, delta: real)
    requires var r0 := if o.radius + delta < MIN_RADIUS then MIN_RADIUS else o.radius + delta;
      SafeMovement(walls, obstacles, collider, Sub(SphericalView(m, center, r0, o.theta, o.phi), view), view) == Zero3
    requires Length(m, Sub(view, center)) >= MIN_RADIUS
    ensures RadiusUpdate(m, walls, obstacles, collider, view, center, o, delta) == (view, Length(m, Sub(view, center)))
  {
    assert Add(view, Zero3) == view;
  }

  class CCamera {
    var theta: real
    var phi: real
    var radius: real
    var projectionType: ProjectionType
    var view: Vec3
    var center: Vec3
    var up: Vec3
    var mxView: Mat
    var mxProj: Mat
    var mxViewProj: Mat
    var viewDirty: bool
    var projDirty: bool

    function GetOrbit(): Orbit
      reads this
    {
      Orbit(theta, phi, radius)
    }

    /** The default camera: eye (5,5,5) looking at the origin, 60 degree perspective. */
    constructor (m: Math)
      ensures view == Vec3(5.0, 5.0, 5.0) && center == Zero3 && up == AxisY
      ensures GetOrbit() == OrbitOf(m, Sub(view, center))
      ensures projectionType == PerspectiveProjection
      ensures mxView == LookAt(view, center, up)
      ensures mxProj == Perspective(Radians(60.0), 1.0, 1.0, 1000.0)
      ensures mxViewProj == Product(mxProj, mxView)
      ensures viewDirty && projDirty
    {
      theta, phi, radius := 0.0, 0.0, 0.0;
      projectionType := PerspectiveProjection;
      view := Vec3(5.0, 5.0, 5.0);
      center := Zero3;
      up := AxisY;
      new;
      UpdateViewCenter(m, view, center);
      mxProj := Perspective(Radians(60.0), 1.0, 1.0, 1000.0);
      mxViewProj := Product(mxProj, mxView);
      viewDirty := true;
      projDirty := true;
    }

    method UpdatePerspective(fovy: real, aspect: real, zNear: real, zFar: real)
      modifies this`mxProj, this`projectionType, this`projDirty
      ensures mxProj == Perspective(Radians(fovy), aspect, zNear, zFar)
      ensures projectionType == PerspectiveProjection && projDirty
    {
      mxProj := Perspective(Radians(fovy), aspect, zNear, zFar);
      projectionType := PerspectiveProjection;
      projDirty := true;
    }

    method UpdateOrthographic(left: real, right: real, bottom: real, top: real, zNear: real, zFar: real)
      modifies this`mxProj, this`projectionType, this`projDirty
      ensures mxProj == Ortho(left, right, bottom, top, zNear, zFar)
      ensures projectionType == OrthographicProjection && projDirty
    {
      mxProj := Ortho(left, right, bottom, top, zNear, zFar);
      projectionType := OrthographicProjection;
      projDirty := true;
    }

    /** Turns the eye about the centre: theta grows by dx * s, phi shrinks by
        dy * s and is kept in [0.1, pi - 0.1]; the eye is re-placed. */
    method ProcessMouseMovement(m: Math, dx: real, dy: real, sensitivity: real)
      modifies this`theta, this`phi, this`view, this`mxView, this`viewDirty
      ensures theta == old(theta) + dx * sensitivity
      ensures phi == ClampPhi(old(phi) - dy * sensitivity)
      ensures PHI_MARGIN <= phi <= PI - PHI_MARGIN
      ensures view == SphericalView(m, center, radius, theta, phi)
      ensures mxView == LookAt(view, center, up) && viewDirty
    {
      theta := theta + dx * sensitivity;
      phi := phi - dy * sensitivity;
      if phi < PHI_MARGIN {
        phi := PHI_MARGIN;
      }
      if phi > PI - PHI_MARGIN {
        phi := PI - PHI_MARGIN;
      }
      UpdateViewMatrixAt(m, theta, phi);
    }

    /** Zoom: the radius shrinks by delta * s, never below 1. The eye itself
        is not moved: the view matrix is rebuilt from the unchanged eye. */
    method ProcessMouseScroll(delta: real, zoomSensitivity: real)
      modifies this`radius, this`mxView, this`viewDirty
      ensures radius == Max(old(radius) - delta * zoomSensitivity, MIN_RADIUS)
      ensures mxView == LookAt(view, center, up) && viewDirty
    {
      radius := radius - delta * zoomSensitivity;
      if radius < MIN_RADIUS {
        radius := MIN_RADIUS;
      }
      UpdateViewMatrix();
    }

    function GetViewLocation(): (v: Vec3)
      reads this
      ensures v == view
    {
      view
    }

    method UpdateView(m: Math, v: Vec3)
      modifies this`view, this`theta, this`phi, this`radius, this`mxView, this`viewDirty
      ensures view == v
      ensures GetOrbit() == OrbitOf(m, Sub(v, center))
      ensures mxView == LookAt(view, center, up) && viewDirty
    {
      view := v;
      Reorbit(m);
    }

    method UpdateCenter(m: Math, c: Vec3)
      modifies this`center, this`theta, this`phi, this`radius, this`mxView, this`viewDirty
      ensures center == c
      ensures GetOrbit() == OrbitOf(m, Sub(view, c))
      ensures mxView == LookAt(view, center, up) && viewDirty
    {
      center := c;
      Reorbit(m);
    }

    method UpdateViewCenter(m: Math, v: Vec3, c: Vec3)
      modifies this`view, this`center, this`theta, this`phi, this`radius, this`mxView, this`viewDirty
      ensures view == v && center == c
      ensures GetOrbit() == OrbitOf(m, Sub(v, c))
      ensures mxView == LookAt(view, center, up) && viewDirty
    {
      view, center := v, c;
      Reorbit(m);
    }

    /** The shared tail of the three setters: spherical coordinates from
        view - center, then the view matrix. */
    method Reorbit(m: Math)
      modifies this`theta, this`phi, this`radius, this`mxView, this`viewDirty
      ensures GetOrbit() == OrbitOf(m, Sub(view, center))
      ensures mxView == LookAt(view, center, up) && viewDirty
    {
      var offset := Sub(view, center);
      radius := Length(m, offset);
      if radius < DEGENERATE_RADIUS {
        radius := 1.0;
        theta := 0.0;
        phi := PI / 2.0;
      } else {
        theta := -m.atan2(-offset.z, offset.x);
        phi := m.acos(Clamp(offset.y / radius, -1.0, 1.0));
      }
      UpdateViewMatrix();
    }

    /** updateViewMatrix(): the view matrix from the current eye. */
    method UpdateViewMatrix()
      modifies this`mxView, this`viewDirty
      ensures mxView == LookAt(view, center, up) && viewDirty
    {
      mxView := LookAt(view, center, up);
      viewDirty := true;
    }

    /** updateViewMatrix(theta, phi): the eye re-placed on the sphere, then the view matrix. */
    method UpdateViewMatrixAt(m: Math, t: real, p: real)
      modifies this`view, this`mxView, this`viewDirty
      ensures view == SphericalView(m, center, radius, t, p)
      ensures mxView == LookAt(view, center, up) && viewDirty
    {
      view := SphericalView(m, center, radius, t, p);
      mxView := LookAt(view, center, up);
      viewDirty := true;
    }

    /** updateRadius: zooms through the collision manager; afterwards the
        radius is at least 1. */
    method UpdateRadius(m: Math, cm: CollisionManager, delta: real)
      modifies this`radius, this`view, this`mxView, this`viewDirty, cm`cameraCollider
      ensures (view, radius) == RadiusUpdate(m, cm.walls, cm.obstacles, old(cm.cameraCollider.radius),
        old(view), center, old(GetOrbit()), delta)
      ensures radius >= MIN_RADIUS
      ensures mxView == LookAt(view, center, up) && viewDirty
    {
      radius := radius + delta;
      if radius < MIN_RADIUS {
        radius := MIN_RADIUS;
      }
      var potentialView := SphericalView(m, center, radius, theta, phi);
      var currentViewLocation := view;
      var desiredMovement := Sub(potentialView, currentViewLocation);
      var safeMovement := cm.GetSafeMovement(desiredMovement, currentViewLocation);
      view := Add(currentViewLocation, safeMovement);
      radius := Length(m, Sub(view, center));
      if radius < MIN_RADIUS {
        radius := MIN_RADIUS;
        view := SphericalView(m, center, radius, theta, phi);
      }
      UpdateViewMatrix();
    }

    function GetProjectionMatrix(): (p: Mat)
      reads this
      ensures p == mxProj
    {
      mxProj
    }

    function GetViewMatrix(): (v: Mat)
      reads this
      ensures v == mxView
    {
      mxView
    }

    function GetProjectionType(): (t: ProjectionType)
      reads this
      ensures t == projectionType
    {
      projectionType
    }

    /** The cached product, recomputed only when a flag is set; both flags
        are then clear, so an immediate second call changes nothing. */
    method GetViewProjectionMatrix() returns (vp: Mat)
      modifies this`mxViewProj, this`viewDirty, this`projDirty
      ensures old(viewDirty || projDirty) ==> mxViewProj == Product(mxProj, mxView)
      ensures !old(viewDirty || projDirty) ==> mxViewProj == old(mxViewProj)
      ensures !viewDirty && !projDirty && vp == mxViewProj
    {
      if viewDirty || projDirty {
        mxViewProj := Product(mxProj, mxView);
        viewDirty := false;
        projDirty := false;
      }
      vp := mxViewProj;
    }
  }
}
