/** Primitives the simulation borrows from the deterministic engine: entity
    handles, player handles, vectors, rotations, transforms and the
    tick-synchronised random source.

    The engine's fixed-point scalar is modelled as `real`: every operation
    below is exact, so fixed-point rounding is not part of this model. */
module Engine {

  datatype Option<+T> = None | Some(value: T)

  /** Handle of an entity in the frame's component store. */
  datatype EntityRef = EntityRef(index: int, version: int)

  /** `EntityRef.None`: the handle no live entity ever has. */
  const NoEntity: EntityRef := EntityRef(0, 0)

  /** Handle of a connected player; index 0 is the engine's "no player". */
  datatype PlayerRef = PlayerRef(index: int) {
    predicate IsValid() { index > 0 }
  }

  datatype Vec2 = Vec2(x: real, y: real)

  datatype Vec3 = Vec3(x: real, y: real, z: real)

  /** Quaternion; its arithmetic (look rotation, Euler angles) is foreign
      to this model and the value is only carried around. */
  datatype Rotation = Rotation(x: real, y: real, z: real, w: real)

  /** The `Transform3D` component: where an entity is and how it faces. */
  datatype Transform3D = Transform3D(position: Vec3, rotation: Rotation)

  const Zero: Vec3 := Vec3(0.0, 0.0, 0.0)
  const Up: Vec3 := Vec3(0.0, 1.0, 0.0)

  function Add(a: Vec3, b: Vec3): Vec3 { Vec3(a.x + b.x, a.y + b.y, a.z + b.z) }

  function Sub(a: Vec3, b: Vec3): Vec3 { Vec3(a.x - b.x, a.y - b.y, a.z - b.z) }

  function Scale(a: Vec3, k: real): Vec3 { Vec3(a.x * k, a.y * k, a.z * k) }

  function Div(a: Vec3, k: real): Vec3
    requires k != 0.0
  {
    Vec3(a.x / k, a.y / k, a.z / k)
  }

  /** `FPVector3.XOZ`: the horizontal part of a vector. */
  function XOZ(a: Vec3): Vec3 { Vec3(a.x, 0.0, a.z) }

  function SqrMagnitude(a: Vec3): real { a.x * a.x + a.y * a.y + a.z * a.z }

  function Max(a: real, b: real): real { if a >= b then a else b }

  function Abs(a: real): real { if a < 0.0 then -a else a }

  function Sign(a: real): real { if a > 0.0 then 1.0 else if a < 0.0 then -1.0 else 0.0 }

  /** `RNG->Next(min, max)`: a draw from the frame's deterministic random
      source. Which value it yields is not modelled, only that it lies in
      `[min, max)`. */
  method RngNext(min: int, max: int) returns (r: int)
    requires min < max
    ensures min <= r < max
  {
    r :| min <= r < max;
  }
}
