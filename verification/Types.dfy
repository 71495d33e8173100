/** Values shared by the client's predictor and the server's batch replay:
    ticks, vectors, opaque rotations, the key set of one tick and one
    buffered input sample. */
module Types {

  datatype Option<T> = None | Some(value: T)

  /** Ticks are C# `ushort`s: they wrap at 65536. */
  const TickModulus: int := 0x1_0000
  type U16 = x: int | 0 <= x < 0x1_0000
  type Byte = x: int | 0 <= x < 0x100

  /** Positions and velocities use exact reals in place of 32-bit floats. */
  datatype Vector3 = Vector3(x: real, y: real, z: real)
  datatype Vector2 = Vector2(x: real, y: real)

  const Zero: Vector3 := Vector3(0.0, 0.0, 0.0)

  function Add(a: Vector3, b: Vector3): Vector3 {
    Vector3(a.x + b.x, a.y + b.y, a.z + b.z)
  }

  function Sub(a: Vector3, b: Vector3): Vector3 {
    Vector3(a.x - b.x, a.y - b.y, a.z - b.z)
  }

  function SqrMagnitude(v: Vector3): real {
    v.x * v.x + v.y * v.y + v.z * v.z
  }

  /** Rotations are opaque values: a product or an inverse is recorded as a
      term and never evaluated. */
  datatype Quaternion =
    | Components(x: real, y: real, z: real, w: real)
    | Product(lhs: Quaternion, rhs: Quaternion)
    | Inverse(of: Quaternion)

  const Identity: Quaternion := Components(0.0, 0.0, 0.0, 1.0)
  /** The value of a quaternion field nobody has assigned (all zeros). */
  const Unset: Quaternion := Components(0.0, 0.0, 0.0, 0.0)

  /** The five key intents of one tick, by position: forward, back, left,
      right, jump. */
  type Keys = k: seq<bool> | |k| == 5 witness [false, false, false, false, false]

  const NoKeys: Keys := [false, false, false, false, false]

  /** One buffered input sample: the keys, the tick it was captured at and
      the look rotation at capture. */
  datatype ClientInput = ClientInput(keys: Keys, currentTick: U16, rotation: Quaternion)

  /** A freshly constructed input object: no keys, tick 0. */
  const BlankInput: ClientInput := ClientInput(NoKeys, 0, Unset)

  /** The part of a rigid body the core reads and writes. */
  datatype RigidBody = RigidBody(position: Vector3, rotation: Quaternion, velocity: Vector3, angularVelocity: Vector3)
}
