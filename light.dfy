/** CLight: a point or spot light with an on/off switch, an intensity that
    scales its colours, and an optional orbit about the y axis driven by a
    four-second clock. The GL uniform uploads are modelled as the records the
    light would write. */
module Light {
  import opened Vectors
  import opened Wrappers

  datatype LightType = Point | Spot

  /** The fields of a light that its operations read and write. */
  datatype LightState = LightState(
    position: Vec3, posStart: Vec3,
    ambient: Vec4, diffuse: Vec4, specular: Vec4,
    constant: real, linear: real, quadratic: real,
    intensity: real, lightType: LightType,
    direction: Vec3, target: Vec3,
    innerCutOff: real, outerCutOff: real, exponent: real,
    displayOn: bool, motionOn: bool, clock: real, lightingOn: bool)

  /** The spot-only uniforms; `exponent` is written by updateToShader only. */
  datatype SpotUniforms = SpotUniforms(direction: Vec3, cutOff: real, outerCutOff: real, exponent: Option<real>)

  /** What one light upload writes: position, colours, attenuation, type, and
      the spot parameters for a SPOT light. */
  datatype LightUniforms = LightUniforms(
    position: Vec3, ambient: Vec4, diffuse: Vec4, specular: Vec4,
    constant: real, linear: real, quadratic: real,
    lightType: LightType, spot: Option<SpotUniforms>)

  /** The clock period of the orbit: 4 seconds for a quarter turn. */
  const CLOCK_PERIOD: real := 4.0

  /** A colour with its alpha pinned to 1. */
  function PinAlpha(c: Vec4): (r: Vec4)
    ensures r.w == 1.0 && r.x == c.x && r.y == c.y && r.z == c.z
  {
    c.(w := 1.0)
  }

  /** setIntensity's effect on one colour: rgb multiplied by k, alpha re-pinned to 1. */
  function ScaleColour(c: Vec4, k: real): (r: Vec4)
    ensures r.w == 1.0
  {
    Vec4(c.x * k, c.y * k, c.z * k, 1.0)
  }

  /** glm's vec4 * float: every component, alpha included, times k. */
  function Times(c: Vec4, k: real): Vec4 {
    Vec4(c.x * k, c.y * k, c.z * k, c.w * k)
  }

  /** Two intensity changes compound: the rgb parts end up scaled by k1 * k2. */
  lemma ScaleColourCompounds(c: Vec4, k1: real, k2: real)
    ensures ScaleColour(ScaleColour(c, k1), k2) == ScaleColour(c, k1 * k2)
  {
    assert c.x * k1 * k2 == c.x * (k1 * k2);
    assert c.y * k1 * k2 == c.y * (k1 * k2);
    assert c.z * k1 * k2 == c.z * (k1 * k2);
  }

  /** Scaling by 1 leaves a colour with alpha 1 as it is. */
  lemma ScaleByOneKeepsColour(c: Vec4)
    requires c.w == 1.0
    ensures ScaleColour(c, 1.0) == c
  {
  }

  /** updateMotion's clock: add dt, and restart at 0 (not at clock - 4) once it reaches 4. */
  function AdvanceClock(clock: real, dt: real): (r: real)
    ensures r < CLOCK_PERIOD
    ensures clock + dt >= 0.0 ==> r >= 0.0
    ensures r == clock + dt || r == 0.0
    ensures clock + dt < CLOCK_PERIOD ==> r == clock + dt
  {
    var c := clock + dt;
    if c >= CLOCK_PERIOD then 0.0 else c
  }

  /** glm::rotate by `angle` about the y axis applied to p: y is kept. */
  function RotateY(m: Math, angle: real, p: Vec3): (r: Vec3)
    ensures r.y == p.y
    ensures p.x == 0.0 && p.z == 0.0 ==> r == p
  {
    Vec3(m.cos(angle) * p.x + m.sin(angle) * p.z, p.y, -m.sin(angle) * p.x + m.cos(angle) * p.z)
  }

  /** setPos on a state: the position is replaced, and only a SPOT light
      re-aims its direction at the stored target. */
  function MovedTo(m: Math, s: LightState, pos: Vec3): (r: LightState)
    ensures r.position == pos
    ensures r.lightType == Spot ==> r.direction == m.normalize(Sub(s.target, pos))
    ensures r.lightType == Point ==> r.direction == s.direction
    ensures r.(position := s.position, direction := s.direction) == s
  {
    s.(position := pos, direction := if s.lightType == Spot then m.normalize(Sub(s.target, pos)) else s.direction)
  }

  /** update(dt): with motion on, advance the clock and place the light at
      posStart turned by clock * pi/2 about y; with motion off, nothing. */
  function Step(m: Math, s: LightState, dt: real): (r: LightState)
    ensures !s.motionOn ==> r == s
    ensures s.motionOn ==> r.clock == AdvanceClock(s.clock, dt)
    ensures s.motionOn ==> r.position == RotateY(m, AdvanceClock(s.clock, dt) * HALF_PI, s.posStart)
    ensures r.(clock := s.clock, position := s.position, direction := s.direction) == s
  {
    if !s.motionOn then s
    else
      var c := AdvanceClock(s.clock, dt);
      MovedTo(m, s.(clock := c), RotateY(m, c * HALF_PI, s.posStart))
  }

  /** n successive updates by the same dt. */
  function Steps(m: Math, s: LightState, dt: real, n: nat): LightState
  {
    if n == 0 then s else Step(m, Steps(m, s, dt, n - 1), dt)
  }

  /** However many updates run, an orbiting light's clock stays in [0, 4),
      its height stays that of its start point, and nothing but the clock,
      the position and the direction ever changes. */
  lemma {:induction false} StepsKeepOrbit(m: Math, s: LightState, dt: real, n: nat)
    requires 0.0 <= s.clock < CLOCK_PERIOD && dt >= 0.0
    requires s.position.y == s.posStart.y
    ensures var r := Steps(m, s, dt, n);
      0.0 <= r.clock < CLOCK_PERIOD && r.position.y == s.posStart.y &&
      r.(clock := s.clock, position := s.position, direction := s.direction) == s
  {
    if n > 0 {
      StepsKeepOrbit(m, s, dt, n - 1);
    }
  }

  /** With motion off, any number of updates change nothing. */
  lemma {:induction false} StepsWithoutMotion(m: Math, s: LightState, dt: real, n: nat)
    requires !s.motionOn
    ensures Steps(m, s, dt, n) == s
  {
    if n > 0 {
      StepsWithoutMotion(m, s, dt, n - 1);
    }
  }

  /** Two updates inside one clock period land where one update by their
      sum lands: the orbit depends on elapsed time only until the clock
      wraps. */
  lemma OrbitDeterminism(m: Math, s: LightState, dt1: real, dt2: real)
    requires s.motionOn && 0.0 <= s.clock && dt1 >= 0.0 && dt2 >= 0.0
    requires s.clock + dt1 + dt2 < CLOCK_PERIOD
    ensures Step(m, Step(m, s, dt1), dt2) == Step(m, s, dt1 + dt2)
  {
    var s1 := Step(m, s, dt1);
    assert s1.clock == s.clock + dt1 && s1.motionOn && s1.posStart == s.posStart;
    assert s1.lightType == s.lightType && s1.target == s.target;
    assert s1.clock + dt2 == s.clock + (dt1 + dt2);
  }

  // ------------------------------------------------------------ aiming

  /** The fields of a new point light: no motion, lit, direction and target
      both (1, 1, 1). */
  function NewPointLight(pos: Vec3, amb: Vec4, diff: Vec4, spec: Vec4, c: real, l: real, q: real): LightState {
    LightState(pos, pos, PinAlpha(amb), PinAlpha(diff), PinAlpha(spec), c, l, q,
      1.0, Point, Vec3(1.0, 1.0, 1.0), Vec3(1.0, 1.0, 1.0), 0.0, 0.0, 1.0, true, false, 0.0, true)
  }

  /** The fields of a new spot light aimed from pos at tgt, its cut-offs
      stored as cosines. */
  function NewSpotLight(m: Math, pos: Vec3, tgt: Vec3, innerDeg: real, outerDeg: real, exp: real,
                        amb: Vec4, diff: Vec4, spec: Vec4, c: real, l: real, q: real): LightState {
    LightState(pos, pos, PinAlpha(amb), PinAlpha(diff), PinAlpha(spec), c, l, q,
      1.0, Spot, m.normalize(Sub(tgt, pos)), tgt, m.cos(Radians(innerDeg)), m.cos(Radians(outerDeg)), exp,
      true, false, 0.0, true)
  }

  /** A spot light shines from its position towards its target. */
  predicate Aimed(m: Math, s: LightState) {
    s.lightType == Spot ==> s.direction == m.normalize(Sub(s.target, s.position))
  }

  /** setTarget on a state: the new target, the direction towards it, and
      the light becomes a spot light. */
  function TargetSet(m: Math, s: LightState, tgt: Vec3): LightState {
    s.(target := tgt, direction := m.normalize(Sub(tgt, s.position)), lightType := Spot)
  }

  /** setCutOffDeg on a state: the cut-offs as cosines, the exponent, and the
      light becomes a spot light; the direction is left as it was. */
  function CutOffSet(m: Math, s: LightState, innerDeg: real, outerDeg: real, exp: real): LightState {
    s.(innerCutOff := m.cos(Radians(innerDeg)), outerCutOff := m.cos(Radians(outerDeg)),
      exponent := exp, lightType := Spot)
  }

  /** Both constructors make aimed lights. */
  lemma NewLightsAimed(m: Math, pos: Vec3, tgt: Vec3, innerDeg: real, outerDeg: real, exp: real,
                       amb: Vec4, diff: Vec4, spec: Vec4, c: real, l: real, q: real)
    ensures Aimed(m, NewPointLight(pos, amb, diff, spec, c, l, q))
    ensures Aimed(m, NewSpotLight(m, pos, tgt, innerDeg, outerDeg, exp, amb, diff, spec, c, l, q))
  {
  }

  /** Moving a light, or giving it a target, leaves it aimed whatever it was before. */
  lemma MovedToAndTargetSetAim(m: Math, s: LightState, pos: Vec3, tgt: Vec3)
    ensures Aimed(m, MovedTo(m, s, pos))
    ensures Aimed(m, TargetSet(m, s, tgt))
  {
  }

  /** Updates keep a light aimed. */
  lemma {:induction false} StepsKeepAim(m: Math, s: LightState, dt: real, n: nat)
    requires Aimed(m, s)
    ensures Aimed(m, Steps(m, s, dt, n))
  {
    if n > 0 {
      StepsKeepAim(m, s, dt, n - 1);
      MovedToAndTargetSetAim(m, Steps(m, s, dt, n - 1).(clock := AdvanceClock(Steps(m, s, dt, n - 1).clock, dt)),
        RotateY(m, AdvanceClock(Steps(m, s, dt, n - 1).clock, dt) * HALF_PI, s.posStart), s.target);
    }
  }

  /** New cut-offs keep a spot light aimed. */
  lemma CutOffKeepsSpotAim(m: Math, s: LightState, innerDeg: real, outerDeg: real, exp: real)
    requires Aimed(m, s) && s.lightType == Spot
    ensures Aimed(m, CutOffSet(m, s, innerDeg, outerDeg, exp))
  {
  }

  /** setCutOffDeg on a new point light at (1, 1, 0) makes a spot light that
      still points along (1, 1, 1), although its target (1, 1, 1) lies
      straight along (0, 0, 1) from it. */
  lemma CutOffBreaksAim(m: Math, amb: Vec4, diff: Vec4, spec: Vec4, c: real, l: real, q: real,
                        innerDeg: real, outerDeg: real, exp: real)
    requires m.normalize(Vec3(0.0, 0.0, 1.0)) == Vec3(0.0, 0.0, 1.0)
    ensures var s := CutOffSet(m, NewPointLight(Vec3(1.0, 1.0, 0.0), amb, diff, spec, c, l, q), innerDeg, outerDeg, exp);
      s.lightType == Spot && !Aimed(m, s)
  {
    var s := CutOffSet(m, NewPointLight(Vec3(1.0, 1.0, 0.0), amb, diff, spec, c, l, q), innerDeg, outerDeg, exp);
    assert Sub(s.target, s.position) == Vec3(0.0, 0.0, 1.0);
  }

  /** setCutOffDeg as evidently intended: turning a light into a spot light
      also aims it at its target. */
  function CutOffSetAimed(m: Math, s: LightState, innerDeg: real, outerDeg: real, exp: real): (r: LightState)
    ensures Aimed(m, r) && r.lightType == Spot
    ensures r.(direction := s.direction) == CutOffSet(m, s, innerDeg, outerDeg, exp)
    ensures Aimed(m, s) ==> r == CutOffSet(m, s, innerDeg, outerDeg, exp) || s.lightType == Point
  {
    CutOffSet(m, s, innerDeg, outerDeg, exp).(direction := m.normalize(Sub(s.target, s.position)))
  }

  /** The spot uniforms both uploads share. */
  function SpotPart(s: LightState, withExponent: bool): (r: Option<SpotUniforms>)
    ensures r.Some? <==> s.lightType == Spot
    ensures r.Some? ==> (r.value.direction == s.direction && r.value.cutOff == s.innerCutOff
      && r.value.outerCutOff == s.outerCutOff
      && r.value.exponent == (if withExponent then Some(s.exponent) else None))
  {
    if s.lightType == Spot then
      Some(SpotUniforms(s.direction, s.innerCutOff, s.outerCutOff, if withExponent then Some(s.exponent) else None))
    else None
  }

  /** setShaderID's upload: zero colours while the light is off; no exponent. */
  function ShaderIdUniforms(s: LightState): (u: LightUniforms)
    ensures !s.lightingOn ==> u.ambient == Zero4 && u.diffuse == Zero4 && u.specular == Zero4
    ensures s.lightingOn ==> u.ambient == s.ambient && u.diffuse == s.diffuse && u.specular == s.specular
    ensures u.position == s.position && u.lightType == s.lightType
    ensures u.spot == SpotPart(s, false)
  {
    var on := s.lightingOn;
    LightUniforms(s.position,
      if on then s.ambient else Zero4, if on then s.diffuse else Zero4, if on then s.specular else Zero4,
      s.constant, s.linear, s.quadratic, s.lightType, SpotPart(s, false))
  }

  /** updateToShader's upload: the stored colours whatever the on flag; a
      SPOT light also sends its exponent. */
  function UpdateUniforms(s: LightState): (u: LightUniforms)
    ensures u.ambient == s.ambient && u.diffuse == s.diffuse && u.specular == s.specular
    ensures u.position == s.position && u.lightType == s.lightType
    ensures u.spot == SpotPart(s, true)
  {
    LightUniforms(s.position, s.ambient, s.diffuse, s.specular,
      s.constant, s.linear, s.quadratic, s.lightType, SpotPart(s, true))
  }

  /** The two uploads agree exactly when the light is on and is a point light;
      a light that is off keeps shining after updateToShader unless its colours are zero. */
  lemma UploadsAgreeIffOnPoint(s: LightState)
    requires s.ambient != Zero4
    ensures ShaderIdUniforms(s) == UpdateUniforms(s) <==> s.lightingOn && s.lightType == Point
  {
    if s.lightType == Spot {
      assert ShaderIdUniforms(s).spot.value.exponent != UpdateUniforms(s).spot.value.exponent;
    }
  }

  class CLight {
    var position: Vec3
    var posStart: Vec3
    var ambient: Vec4
    var diffuse: Vec4
    var specular: Vec4
    var constant: real
    var linear: real
    var quadratic: real
    var intensity: real
    var lightType: LightType
    var direction: Vec3
    var target: Vec3
    var innerCutOff: real
    var outerCutOff: real
    var exponent: real
    var displayOn: bool
    var motionOn: bool
    var clock: real
    var lightingOn: bool
    var shaderID: nat
    var lightName: string

    /** The light's fields as a value. */
    function State(): LightState
      reads this
    {
      LightState(position, posStart, ambient, diffuse, specular, constant, linear, quadratic,
        intensity, lightType, direction, target, innerCutOff, outerCutOff, exponent,
        displayOn, motionOn, clock, lightingOn)
    }

    /** The point-light constructor. */
    constructor PointLight(pos: Vec3, amb: Vec4, diff: Vec4, spec: Vec4, c: real, l: real, q: real)
      ensures State() == NewPointLight(pos, amb, diff, spec, c, l, q)
      ensures shaderID == 0 && lightName == ""
    {
      position := pos;
      ambient, diffuse, specular := PinAlpha(amb), PinAlpha(diff), PinAlpha(spec);
      constant, linear, quadratic := c, l, q;
      intensity := 1.0;
      lightType, posStart := Point, pos;
      direction, target := Vec3(1.0, 1.0, 1.0), Vec3(1.0, 1.0, 1.0);
      innerCutOff, outerCutOff, exponent := 0.0, 0.0, 1.0;
      displayOn, motionOn, clock := true, false, 0.0;
      lightingOn := true;
      shaderID, lightName := 0, "";
    }

    /** The spot-light constructor: aimed from pos at tgt, cut-offs stored as cosines. */
    constructor SpotLight(m: Math, pos: Vec3, tgt: Vec3, innerDeg: real, outerDeg: real, exp: real,
                          amb: Vec4, diff: Vec4, spec: Vec4, c: real, l: real, q: real)
      ensures State() == NewSpotLight(m, pos, tgt, innerDeg, outerDeg, exp, amb, diff, spec, c, l, q)
      ensures shaderID == 0 && lightName == ""
    {
      position, target := pos, tgt;
      direction := m.normalize(Sub(tgt, pos));
      intensity, exponent := 1.0, exp;
      innerCutOff := m.cos(Radians(innerDeg));
      outerCutOff := m.cos(Radians(outerDeg));
      ambient, diffuse, specular := PinAlpha(amb), PinAlpha(diff), PinAlpha(spec);
      constant, linear, quadratic := c, l, q;
      lightType, posStart := Spot, pos;
      displayOn, motionOn, clock := true, false, 0.0;
      lightingOn := true;
      shaderID, lightName := 0, "";
    }

    method SetPos(m: Math, pos: Vec3)
      modifies this`position, this`direction
      ensures State() == MovedTo(m, old(State()), pos)
    {
      position := pos;
      if lightType == Spot {
        direction := m.normalize(Sub(target, position));
      }
    }

    method SetAmbient(c: Vec4)
      modifies this`ambient
      ensures ambient == c
    {
      ambient := c;
    }

    method SetDiffuse(c: Vec4)
      modifies this`diffuse
      ensures diffuse == c
    {
      diffuse := c;
    }

    method SetSpecular(c: Vec4)
      modifies this`specular
      ensures specular == c
    {
      specular := c;
    }

    /** Scales the stored colours in place by k (so repeated calls compound). */
    method SetIntensity(k: real)
      modifies this`intensity, this`ambient, this`diffuse, this`specular
      ensures intensity == k
      ensures ambient == ScaleColour(old(ambient), k)
      ensures diffuse == ScaleColour(old(diffuse), k)
      ensures specular == ScaleColour(old(specular), k)
    {
      intensity := k;
      ambient, diffuse, specular := Times(ambient, intensity), Times(diffuse, intensity), Times(specular, intensity);
      ambient, diffuse, specular := ambient.(w := 1.0), diffuse.(w := 1.0), specular.(w := 1.0);
    }

    method SetAttenuation(c: real, l: real, q: real)
      modifies this`constant, this`linear, this`quadratic
      ensures constant == c && linear == l && quadratic == q
    {
      constant, linear, quadratic := c, l, q;
    }

    method SetLightOn(enable: bool)
      modifies this`lightingOn
      ensures lightingOn == enable
    {
      lightingOn := enable;
    }

    /** setMotionEnabled flips the motion flag. */
    method ToggleMotion()
      modifies this`motionOn
      ensures motionOn == !old(motionOn)
    {
      motionOn := !motionOn;
    }

    /** Aims the light at tgt and makes it a spot light. */
    method SetTarget(m: Math, tgt: Vec3)
      modifies this`target, this`direction, this`lightType
      ensures State() == TargetSet(m, old(State()), tgt)
    {
      target := tgt;
      direction := m.normalize(Sub(target, position));
      lightType := Spot;
    }

    /** Stores the cut-offs as cosines and makes the light a spot light. */
    method SetCutOffDeg(m: Math, innerDeg: real, outerDeg: real, exp: real)
      modifies this`innerCutOff, this`outerCutOff, this`exponent, this`lightType
      ensures State() == CutOffSet(m, old(State()), innerDeg, outerDeg, exp)
    {
      innerCutOff := m.cos(Radians(innerDeg));
      outerCutOff := m.cos(Radians(outerDeg));
      exponent := exp;
      lightType := Spot;
    }

    method Update(m: Math, dt: real)
      modifies this`clock, this`position, this`direction
      ensures State() == Step(m, old(State()), dt)
    {
      if motionOn {
        UpdateMotion(m, dt);
      }
    }

    method UpdateMotion(m: Math, dt: real)
      requires motionOn
      modifies this`clock, this`position, this`direction
      ensures State() == Step(m, old(State()), dt)
    {
      clock := clock + dt;
      if clock >= CLOCK_PERIOD {
        clock := 0.0;
      }
      var currentAngle := clock * HALF_PI;
      var pos := RotateY(m, currentAngle, posStart);
      position := pos;
      SetPos(m, position);
    }

    /** setShaderID: binds the program and name, records whether the marker is
        shown, and returns the upload (zero colours when the light is off). */
    method SetShaderID(shader: nat, name: string, display: bool) returns (u: LightUniforms)
      modifies this`shaderID, this`lightName, this`displayOn
      ensures shaderID == shader && lightName == name && displayOn == display
      ensures u == ShaderIdUniforms(old(State()))
    {
      shaderID, lightName := shader, name;
      u := ShaderIdUniforms(State());
      displayOn := display;
    }

    /** updateToShader: the upload of the stored colours, whatever the on flag. */
    function UpdateToShader(): (u: LightUniforms)
      reads this
      ensures u == UpdateUniforms(State())
    {
      UpdateUniforms(State())
    }
  }
}
