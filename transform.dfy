/** Transform: a model's position, Euler rotation in degrees and scale, and
    the model matrix they make. The struct is held by value inside the model
    registry, so it is a datatype whose setters return the updated value. */
module Transforms {
  import opened Vectors

  datatype Transform = Transform(position: Vec3, rotation: Vec3, scale: Vec3) {

    /** setScale(u): uniform scale; position and rotation are kept. */
    function SetUniformScale(u: real): (t: Transform)
      ensures t.scale.x == u && t.scale.y == u && t.scale.z == u
      ensures t.position == position && t.rotation == rotation
    {
      this.(scale := Vec3(u, u, u))
    }

    /** setScale(x, y, z) */
    function SetScale(x: real, y: real, z: real): (t: Transform)
      ensures t.scale == Vec3(x, y, z) && t.position == position && t.rotation == rotation
    {
      this.(scale := Vec3(x, y, z))
    }

    /** setPosition(x, y, z) */
    function SetPosition(x: real, y: real, z: real): (t: Transform)
      ensures t.position == Vec3(x, y, z) && t.rotation == rotation && t.scale == scale
    {
      this.(position := Vec3(x, y, z))
    }

    /** setRotation(x, y, z), in degrees */
    function SetRotation(x: real, y: real, z: real): (t: Transform)
      ensures t.rotation == Vec3(x, y, z) && t.position == position && t.scale == scale
    {
      this.(rotation := Vec3(x, y, z))
    }

    /** getMatrix: translate, then rotate about X, Y and Z by the angles
        converted to radians, then scale, each post-multiplied as glm does. */
    function GetMatrix(): (m: Mat)
      ensures Factors(m) == [Translate(position), Rotate(Radians(rotation.x), AxisX),
        Rotate(Radians(rotation.y), AxisY), Rotate(Radians(rotation.z), AxisZ), ScaleBy(scale)]
    {
      var t := Translate(position);
      var rx := Product(t, Rotate(Radians(rotation.x), AxisX));
      assert Factors(rx) == [t, Rotate(Radians(rotation.x), AxisX)];
      var ry := Product(rx, Rotate(Radians(rotation.y), AxisY));
      assert Factors(ry) == Factors(rx) + [Rotate(Radians(rotation.y), AxisY)];
      var rz := Product(ry, Rotate(Radians(rotation.z), AxisZ));
      assert Factors(rz) == Factors(ry) + [Rotate(Radians(rotation.z), AxisZ)];
      Product(rz, ScaleBy(scale))
    }
  }

  /** Transform(): at the origin, unrotated, unit scale. */
  function DefaultTransform(): (t: Transform)
    ensures t.position == Zero3 && t.rotation == Zero3 && t.scale == Vec3(1.0, 1.0, 1.0)
  {
    Transform(Zero3, Zero3, Vec3(1.0, 1.0, 1.0))
  }

  /** The factors of a matrix product, left to right. */
  function Factors(m: Mat): seq<Mat> {
    match m
    case Product(l, r) => Factors(l) + Factors(r)
    case _ => [m]
  }

  /** Setting the uniform scale is setting the same factor on every axis. */
  lemma UniformScaleIsScale(t: Transform, u: real)
    ensures t.SetUniformScale(u) == t.SetScale(u, u, u)
  {
  }

  /** Each setter overwrites the previous value of its own field only, so
      setters of different fields commute and a repeated setter keeps the last value. */
  lemma SettersCommute(t: Transform, p: Vec3, r: Vec3, s: Vec3, q: Vec3)
    ensures t.SetPosition(p.x, p.y, p.z).SetRotation(r.x, r.y, r.z)
         == t.SetRotation(r.x, r.y, r.z).SetPosition(p.x, p.y, p.z)
    ensures t.SetScale(s.x, s.y, s.z).SetPosition(p.x, p.y, p.z)
         == t.SetPosition(p.x, p.y, p.z).SetScale(s.x, s.y, s.z)
    ensures t.SetPosition(q.x, q.y, q.z).SetPosition(p.x, p.y, p.z) == t.SetPosition(p.x, p.y, p.z)
  {
  }

  /** The default matrix has no translation, zero rotation angles and unit scale. */
  lemma DefaultMatrix()
    ensures Factors(DefaultTransform().GetMatrix()) == [Translate(Zero3), Rotate(0.0, AxisX),
      Rotate(0.0, AxisY), Rotate(0.0, AxisZ), ScaleBy(Vec3(1.0, 1.0, 1.0))]
  {
  }
}
