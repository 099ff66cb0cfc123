/** CLightManager: an ordered list of at most eight lights, forwarded the frame
    time and uploaded to a shader slot by slot. The list holds references, so
    the same light may sit in it twice. */
module LightManager {
  import opened Vectors
  import opened Wrappers
  import opened Light

  /** MAX_LIGHTS */
  const MAX_LIGHTS: nat := 8

  /** One `uLights[i]` slot: the light's uniforms plus its `enabled` flag. */
  datatype SlotUniforms = SlotUniforms(light: LightUniforms, enabled: int)

  /** What updateAllLightsToShader writes: `uNumLights` and the slots. */
  datatype Upload = Upload(numLights: nat, slots: seq<SlotUniforms>)

  /** The slot of one light: its colours when on and zero colours when off
      (as setShaderID does), enabled 1 or 0, and, for a SPOT light, the
      direction, both cut-offs and the exponent (as updateToShader does). */
  function ManagerSlot(s: LightState): (r: SlotUniforms)
    ensures r.enabled == (if s.lightingOn then 1 else 0)
    ensures r.light.position == s.position && r.light.lightType == s.lightType
    ensures r.light.(spot := None) == ShaderIdUniforms(s).(spot := None)
    ensures r.light.spot == UpdateUniforms(s).spot
    ensures r.light.spot.Some? <==> s.lightType == Spot
  {
    SlotUniforms(ShaderIdUniforms(s).(spot := SpotPart(s, true)), if s.lightingOn then 1 else 0)
  }

  /** A light that is switched off contributes nothing to any colour. */
  lemma OffSlotIsDark(s: LightState)
    requires !s.lightingOn
    ensures var r := ManagerSlot(s);
      r.enabled == 0 && r.light.ambient == Zero4 && r.light.diffuse == Zero4 && r.light.specular == Zero4
  {
    assert ManagerSlot(s).light.ambient == ShaderIdUniforms(s).ambient;
    assert ManagerSlot(s).light.diffuse == ShaderIdUniforms(s).diffuse;
    assert ManagerSlot(s).light.specular == ShaderIdUniforms(s).specular;
  }

  /** The slots of the first n lights, in list order. */
  function SlotsOf(ls: seq<CLight>, n: nat): (r: seq<SlotUniforms>)
    requires n <= |ls|
    reads ls
    ensures |r| == n
    ensures forall i :: 0 <= i < n ==> r[i] == ManagerSlot(ls[i].State())
  {
    if n == 0 then [] else SlotsOf(ls, n - 1) + [ManagerSlot(ls[n - 1].State())]
  }

  class CLightManager {
    var lights: seq<CLight>
    var shaderID: nat

    /** The list never grows past MAX_LIGHTS. */
    predicate Valid()
      reads this
    {
      |lights| <= MAX_LIGHTS
    }

    constructor ()
      ensures lights == [] && shaderID == 0 && Valid()
    {
      lights := [];
      shaderID := 0;
    }

    /** Appends the light while there is room and the reference is not null. */
    method AddLight(light: CLight?)
      modifies this`lights
      ensures lights == if |old(lights)| < MAX_LIGHTS && light != null then old(lights) + [light] else old(lights)
      ensures old(Valid()) ==> Valid()
    {
      if |lights| < MAX_LIGHTS && light != null {
        lights := lights + [light];
      }
    }

    /** Erases the light at index, keeping the others in order; out of range does nothing. */
    method RemoveLight(index: int)
      modifies this`lights
      ensures 0 <= index < |old(lights)| ==> lights == old(lights)[..index] + old(lights)[index + 1..]
      ensures !(0 <= index < |old(lights)|) ==> lights == old(lights)
      ensures old(Valid()) ==> Valid()
    {
      if 0 <= index < |lights| {
        lights := lights[..index] + lights[index + 1..];
      }
    }

    method ClearLights()
      modifies this`lights
      ensures lights == [] && Valid()
    {
      lights := [];
    }

    function GetLightCount(): (n: nat)
      reads this
      ensures n == |lights|
    {
      |lights|
    }

    /** The light at index, or null when index is out of range. */
    function GetLight(index: int): (l: CLight?)
      reads this
      ensures l != null <==> 0 <= index < |lights|
      ensures l != null ==> l == lights[index]
    {
      if 0 <= index < |lights| then lights[index] else null
    }

    /** setShaderID: stores the program, writes the light count, then uploads. */
    method SetShaderID(shader: nat) returns (count: nat, upload: Option<Upload>)
      modifies this`shaderID
      ensures shaderID == shader && count == |lights|
      ensures upload == (if shader == 0 then None else Some(Upload(|lights|, SlotsOf(lights, (if |lights| < MAX_LIGHTS then |lights| else MAX_LIGHTS)))))
    {
      shaderID := shader;
      count := |lights|;
      upload := UpdateAllLightsToShader();
    }

    /** updateAllLightsToShader: nothing without a program; otherwise the
        count and one slot per light, in list order, for at most MAX_LIGHTS. */
    method UpdateAllLightsToShader() returns (upload: Option<Upload>)
      ensures shaderID == 0 ==> upload == None
      ensures shaderID != 0 ==> upload.Some? && upload.value.numLights == |lights|
      ensures shaderID != 0 ==> |upload.value.slots| == (if |lights| < MAX_LIGHTS then |lights| else MAX_LIGHTS)
      ensures shaderID != 0 ==> forall i :: 0 <= i < |upload.value.slots| ==> upload.value.slots[i] == ManagerSlot(lights[i].State())
      ensures shaderID != 0 ==> upload.value.slots == SlotsOf(lights, |upload.value.slots|)
    {
      if shaderID == 0 {
        return None;
      }
      var slots: seq<SlotUniforms> := [];
      var i := 0;
      while i < |lights| && i < MAX_LIGHTS
        invariant 0 <= i <= |lights| && i <= MAX_LIGHTS
        invariant slots == SlotsOf(lights, i)
      {
        var light := lights[i];
        slots := slots + [ManagerSlot(light.State())];
        i := i + 1;
      }
      upload := Some(Upload(|lights|, slots));
    }

    /** update(dt): every light in the list is updated once per occurrence, in
        list order; a light listed k times is advanced k times. */
    method Update(m: Math, dt: real)
      modifies lights
      ensures forall l :: l in lights ==> l.State() == Steps(m, old(l.State()), dt, multiset(lights)[l])
    {
      UpdatePrefix(m, dt, |lights|);
      assert lights[..|lights|] == lights;
    }

    /** Update's loop run over the first n entries of the list. */
    method UpdatePrefix(m: Math, dt: real, n: nat)
      requires n <= |lights|
      modifies lights
      ensures forall l :: l in lights ==> l.State() == Steps(m, old(l.State()), dt, multiset(lights[..n])[l])
    {
      var ls := lights;
      ghost var start := map l | l in ls :: l.State();
      var i := 0;
      while i < n
        invariant 0 <= i <= n
        invariant start.Keys == set l | l in ls
        invariant forall l :: l in ls ==> l.State() == Steps(m, start[l], dt, multiset(ls[..i])[l])
      {
        UpdateAt(m, dt, ls, i, start);
        i := i + 1;
      }
    }
  }

  /** The body of update's loop: the light at index i is updated once. */
  method UpdateAt(m: Math, dt: real, ls: seq<CLight>, i: nat, ghost start: map<CLight, LightState>)
    requires i < |ls|
    requires forall l :: l in ls ==> l in start && l.State() == Steps(m, start[l], dt, multiset(ls[..i])[l])
    modifies ls[i]
    ensures forall l :: l in ls ==> l.State() == Steps(m, start[l], dt, multiset(ls[..i + 1])[l])
  {
    var light := ls[i];
    ghost var before := map l | l in ls :: l.State();
    light.Update(m, dt);
    ghost var after := map l | l in ls :: l.State();
    AdvanceOne(m, dt, ls, i, start, before, after);
  }

  /** One pass of the update loop, on snapshots: the light at position i takes
      one more step and every other light keeps its state, so each light has
      taken as many steps as it occurs in the first i + 1 entries. */
  lemma AdvanceOne(m: Math, dt: real, ls: seq<CLight>, i: nat,
                   start: map<CLight, LightState>, before: map<CLight, LightState>, after: map<CLight, LightState>)
    requires i < |ls|
    requires forall l :: l in ls ==> l in start && l in before && l in after
    requires forall l :: l in ls ==> before[l] == Steps(m, start[l], dt, multiset(ls[..i])[l])
    requires after[ls[i]] == Step(m, before[ls[i]], dt)
    requires forall l :: l in ls && l != ls[i] ==> after[l] == before[l]
    ensures forall l :: l in ls ==> after[l] == Steps(m, start[l], dt, multiset(ls[..i + 1])[l])
  {
    assert ls[..i + 1] == ls[..i] + [ls[i]];
  }
}
