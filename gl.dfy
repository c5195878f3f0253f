/** Values the scene manager exchanges with OpenGL and glm: texture names,
    vectors, a symbolic model matrix, the primitive meshes, and the
    texture-unit state of the GL context. */
module GlTypes {

  datatype Option<T> = None | Some(value: T)

  /** An OpenGL texture name (`GLuint`, an unsigned 32-bit integer). */
  type GLuint = x: int | 0 <= x < 0x1_0000_0000

  /** The C++ conversion of a `GLuint` into a signed 32-bit `int`
      (two's complement: the bit pattern is kept). */
  function AsInt32(id: GLuint): (r: int)
    ensures -0x8000_0000 <= r < 0x8000_0000
    ensures r % 0x1_0000_0000 == id
    ensures id < 0x8000_0000 ==> r == id
  {
    if id < 0x8000_0000 then id else id - 0x1_0000_0000
  }

  // glm vectors; float components are modelled as reals
  datatype Vec2 = Vec2(u: real, v: real)
  datatype Vec3 = Vec3(x: real, y: real, z: real)
  datatype Vec4 = Vec4(r: real, g: real, b: real, a: real)

  /** A 4x4 matrix kept as the product of the glm factors that built it;
      the numeric entries are not modelled. */
  datatype Mat =
    | Scale(s: Vec3)
    | RotateX(degrees: real)
    | RotateY(degrees: real)
    | RotateZ(degrees: real)
    | Translate(p: Vec3)
    | Mul(left: Mat, right: Mat)

  /** The factors of a product, left to right. */
  function Factors(m: Mat): seq<Mat>
  {
    match m
    case Mul(l, r) => Factors(l) + Factors(r)
    case _ => [m]
  }

  /** The model matrix SetTransformations composes, as a symbolic product
      of the glm factors: translation, Z, Y and X rotation, scale. */
  function ModelMatrix(scaleXYZ: Vec3, xDegrees: real, yDegrees: real, zDegrees: real, positionXYZ: Vec3): Mat
  {
    Mul(Mul(Mul(Mul(Translate(positionXYZ), RotateZ(zDegrees)), RotateY(yDegrees)), RotateX(xDegrees)), Scale(scaleXYZ))
  }

  /** The order in which the factors of the model matrix are multiplied,
      left to right. This is a fact about the symbolic product only: no
      matrix arithmetic is modelled, so it says nothing about what the
      product does to a point. */
  lemma ModelMatrixOrder(scaleXYZ: Vec3, xDegrees: real, yDegrees: real, zDegrees: real, positionXYZ: Vec3)
    ensures Factors(ModelMatrix(scaleXYZ, xDegrees, yDegrees, zDegrees, positionXYZ))
      == [Translate(positionXYZ), RotateZ(zDegrees), RotateY(yDegrees), RotateX(xDegrees), Scale(scaleXYZ)]
  {
    var tz := Mul(Translate(positionXYZ), RotateZ(zDegrees));
    assert Factors(tz) == [Translate(positionXYZ), RotateZ(zDegrees)];
    var tzy := Mul(tz, RotateY(yDegrees));
    assert Factors(tzy) == Factors(tz) + [RotateY(yDegrees)];
    var tzyx := Mul(tzy, RotateX(xDegrees));
    assert Factors(tzyx) == Factors(tzy) + [RotateX(xDegrees)];
  }

  /** The primitives the mesh collaborator can draw. */
  datatype Mesh = Plane | Cylinder | Torus | Box | Pyramid4

  /** The texture-unit state of the GL context: the active unit, the
      texture bound to GL_TEXTURE_2D on each unit, and the sequence of
      (unit, texture) bindings made so far. */
  class TextureUnits {
    var active: int
    var bound: map<int, GLuint>
    ghost var trace: seq<(int, GLuint)>

    /** glActiveTexture(GL_TEXTURE0 + unit) */
    method ActiveTexture(unit: int)
      modifies this
      ensures active == unit && bound == old(bound) && trace == old(trace)
    {
      active := unit;
    }

    /** glBindTexture(GL_TEXTURE_2D, id): binds on the active unit. */
    method BindTexture(id: GLuint)
      modifies this
      ensures active == old(active)
      ensures bound == old(bound)[active := id]
      ensures trace == old(trace) + [(active, id)]
    {
      bound := bound[active := id];
      trace := trace + [(active, id)];
    }
  }
}
