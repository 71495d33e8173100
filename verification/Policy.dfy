/** The movement policy shared by client and server: how the keys of one
    tick become a move direction, and the physics step that consumes it. */
module Policy {
  import opened Types

  /** The engine's part of one tick (ground test, force application,
      integration), given the body, the move direction, the jump key and the
      look rotation. It is injected: nothing is assumed about it except that
      it is a function of these arguments. It sees and returns the stepping
      body only, so no other body of the scene moves during a step. */
  type Physics = (RigidBody, Vector2, bool, Quaternion) -> RigidBody

  /** Forward adds one to y, back subtracts one, left subtracts one from x,
      right adds one: opposing keys cancel, neither has priority. */
  function GetDirection(keys: Keys): (d: Vector2)
    ensures d.x in {-1.0, 0.0, 1.0} && d.y in {-1.0, 0.0, 1.0}
    ensures d.y == 1.0 <==> keys[0] && !keys[1]
    ensures d.y == -1.0 <==> keys[1] && !keys[0]
    ensures d.y == 0.0 <==> keys[0] == keys[1]
    ensures d.x == 1.0 <==> keys[3] && !keys[2]
    ensures d.x == -1.0 <==> keys[2] && !keys[3]
    ensures d.x == 0.0 <==> keys[2] == keys[3]
  {
    var y0 := 0.0;
    var y1 := if keys[0] then y0 + 1.0 else y0;
    var y2 := if keys[1] then y1 - 1.0 else y1;
    var x0 := 0.0;
    var x1 := if keys[2] then x0 - 1.0 else x0;
    var x2 := if keys[3] then x1 + 1.0 else x1;
    Vector2(x2, y2)
  }

  /** One tick of movement: the physics sees the keys only through the
      direction and the jump key. */
  function PhysicsStep(p: Physics, body: RigidBody, keys: Keys, look: Quaternion): RigidBody {
    p(body, GetDirection(keys), keys[4], look)
  }

  /** One tick driven by a buffered sample. */
  function Apply(p: Physics, body: RigidBody, input: ClientInput): RigidBody {
    PhysicsStep(p, body, input.keys, input.rotation)
  }

  /** Replaying a sequence of samples, first to last. */
  function ApplyAll(p: Physics, body: RigidBody, inputs: seq<ClientInput>): RigidBody
    decreases |inputs|
  {
    if inputs == [] then body else ApplyAll(p, Apply(p, body, inputs[0]), inputs[1..])
  }

  /** Replaying one more sample runs one more step after the others, so a
      loop that steps once per sample computes ApplyAll. */
  lemma {:induction false} ApplyAllSnoc(p: Physics, body: RigidBody, inputs: seq<ClientInput>, x: ClientInput)
    ensures ApplyAll(p, body, inputs + [x]) == Apply(p, ApplyAll(p, body, inputs), x)
    decreases |inputs|
  {
    if inputs == [] {
      assert [] + [x] == [x];
      assert [x][1..] == [];
    } else {
      assert (inputs + [x])[1..] == inputs[1..] + [x];
      ApplyAllSnoc(p, Apply(p, body, inputs[0]), inputs[1..], x);
    }
  }

  /** Holding forward and back steps exactly as holding neither; so does
      holding left and right. */
  lemma OpposingKeysCancel(p: Physics, body: RigidBody, keys: Keys, look: Quaternion)
    ensures PhysicsStep(p, body, keys[0 := true][1 := true], look)
         == PhysicsStep(p, body, keys[0 := false][1 := false], look)
    ensures PhysicsStep(p, body, keys[2 := true][3 := true], look)
         == PhysicsStep(p, body, keys[2 := false][3 := false], look)
  {
    var both := keys[0 := true][1 := true];
    var none := keys[0 := false][1 := false];
    assert GetDirection(both) == GetDirection(none);
    var both' := keys[2 := true][3 := true];
    var none' := keys[2 := false][3 := false];
    assert GetDirection(both') == GetDirection(none');
  }
}
