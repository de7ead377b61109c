/**
 * Values shared by the scene and view managers: small vectors, symbolic
 * matrix descriptors and the named uniform writes the shader manager accepts.
 * Matrices are never computed; each is kept as the description of the glm
 * call that would build it.
 */
module Gfx {

  datatype Option<+T> = None | Some(value: T)

  datatype Vec2 = Vec2(x: real, y: real)
  datatype Vec3 = Vec3(x: real, y: real, z: real)
  datatype Vec4 = Vec4(x: real, y: real, z: real, w: real)

  /** One factor of a model matrix, angles in degrees. */
  datatype Factor =
    | Translate(offset: Vec3)
    | RotateX(degrees: real)
    | RotateY(degrees: real)
    | RotateZ(degrees: real)
    | Scale(factors: Vec3)

  /** The parameters handed to glm::ortho or glm::perspective. */
  datatype Projection =
    | Orthographic(left: real, right: real, bottom: real, top: real, near: real, far: real)
    | Perspective(fovDegrees: real, aspect: real, near: real, far: real)

  /** A 4x4 matrix, by the way it is built. */
  datatype Matrix =
    | Product(factors: seq<Factor>)    // leftmost factor first
    | CameraView                       // whatever the camera's GetViewMatrix returns
    | ProjectionMatrix(projection: Projection)

  datatype UniformValue =
    | IntValue(i: int)
    | FloatValue(f: real)
    | Vec2Value(v2: Vec2)
    | Vec3Value(v3: Vec3)
    | Vec4Value(v4: Vec4)
    | Sampler2DValue(unit: int)
    | Mat4Value(m: Matrix)

  /** One call on the shader manager: a named uniform and the value written. */
  datatype UniformWrite = UniformWrite(name: string, value: UniformValue)

  /** Regrouping appends to a log: used where one step's events are spliced into a longer record. */
  lemma AppendAssociates<T>(a: seq<T>, b: seq<T>, c: seq<T>)
    ensures (a + b) + c == a + (b + c)
  {
  }
}
