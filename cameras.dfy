/**
 * The Camera class of src/camera.cpp: four float[3] buffers and four floats,
 * updated in place through the vector helpers of module Vectors.  Every
 * method is proved to move the camera's State() exactly as the matching
 * function of module CameraModel says.
 */
module Cameras {
  import opened MathEnv
  import opened Geometry
  import opened Vectors
  import opened CameraModel

  class Camera {
    // The embedded arrays of the C++ object: fixed buffers, mutable contents.
    const forwardVec: array<real>
    const rightVec: array<real>
    const upVec: array<real>
    const position: array<real>

    var cameraSpeed: real
    var cameraTurnSpeed: real
    var mouseUpDown: real
    var mouseLeftRight: real

    /** Four distinct 3-element buffers. */
    predicate Valid()
      reads this
    {
      && forwardVec.Length == 3 && rightVec.Length == 3 && upVec.Length == 3 && position.Length == 3
      && forwardVec != rightVec && forwardVec != upVec && forwardVec != position
      && rightVec != upVec && rightVec != position && upVec != position
    }

    /** The camera as a value. */
    function State(): CameraState
      reads this, forwardVec, rightVec, upVec, position
      requires Valid()
    {
      CameraState(Of(position), Of(forwardVec), Of(rightVec), Of(upVec),
                  cameraSpeed, cameraTurnSpeed, mouseUpDown, mouseLeftRight)
    }

    /** Camera(): the literal speeds, position and basis; the mouse angles of
        the global camera object start at zero. */
    constructor ()
      ensures Valid() && State() == Initial
      ensures fresh(forwardVec) && fresh(rightVec) && fresh(upVec) && fresh(position)
    {
      var p, f, r, u := new real[3], new real[3], new real[3], new real[3];
      VectorSet(p, 0.764331460, -1.66760659, 0.642456770);
      VectorSet(f, -0.398769796, 0.763009906, -0.508720219);
      VectorSet(r, 0.886262059, 0.463184059, 0.0);
      VectorSet(u, -0.235630989, 0.450859368, 0.860931039);
      cameraSpeed := 0.005;
      cameraTurnSpeed := 0.01;
      position, forwardVec, rightVec, upVec := p, f, r, u;
      mouseUpDown, mouseLeftRight := 0.0, 0.0;
    }

    /** reset: the constructor's literals again; the mouse angles stay. */
    method Reset()
      requires Valid()
      modifies this, position, forwardVec, rightVec, upVec
      ensures Valid() && State() == CameraModel.Reset(old(State()))
    {
      cameraSpeed := 0.005;
      cameraTurnSpeed := 0.01;
      VectorSet(position, 0.764331460, -1.66760659, 0.642456770);
      VectorSet(forwardVec, -0.398769796, 0.763009906, -0.508720219);
      VectorSet(rightVec, 0.886262059, 0.463184059, 0.0);
      VectorSet(upVec, -0.235630989, 0.450859368, 0.860931039);
    }

    /** transformWithMouse: the basis turned by theta and phi, written to the
        three output buffers; the stored basis is only read. */
    method TransformWithMouse(theta: real, phi: real, forward: array<real>, up: array<real>, right: array<real>, env: Env)
      requires Valid()
      requires forward.Length == 3 && up.Length == 3 && right.Length == 3
      requires forward != up && forward != right && up != right
      requires forward !in {forwardVec, rightVec, upVec} && up !in {forwardVec, rightVec, upVec}
      requires right !in {forwardVec, rightVec, upVec}
      modifies forward, up, right
      ensures var b := MouseBasis(Of(forwardVec), Of(upVec), Of(rightVec), theta, phi, env);
        Of(forward) == b.forward && Of(up) == b.up && Of(right) == b.right
    {
      var tempForward, tempUp, tempRight, tempVec := new real[3], new real[3], new real[3], new real[3];
      RotateAroundVec(forwardVec, upVec, theta, tempVec, env);
      RotateAroundVec(rightVec, upVec, theta, tempRight, env);
      RotateAroundVec(tempVec, tempRight, phi, tempForward, env);
      RotateAroundVec(upVec, tempRight, phi, tempUp, env);
      VectorCopy(forward, tempForward);
      VectorCopy(right, tempRight);
      VectorCopy(up, tempUp);
    }

    /** The steering basis in three fresh buffers, as each move computes it. */
    method Steering(env: Env) returns (tempForward: array<real>, tempUp: array<real>, tempRight: array<real>)
      requires Valid()
      ensures fresh(tempForward) && fresh(tempUp) && fresh(tempRight)
      ensures tempForward.Length == 3 && tempUp.Length == 3 && tempRight.Length == 3
      ensures Of(tempForward) == SteeringBasis(State(), env).forward
      ensures Of(tempRight) == SteeringBasis(State(), env).right
    {
      tempForward, tempUp, tempRight := new real[3], new real[3], new real[3];
      TransformWithMouse(mouseLeftRight, mouseUpDown, tempForward, tempUp, tempRight, env);
    }

    /** forward: position += steering forward * speed. */
    method Forward(env: Env)
      requires Valid()
      modifies position
      ensures Valid() && State() == MoveForward(old(State()), env)
    {
      var tempForward, tempUp, tempRight := Steering(env);
      var vec := new real[3];
      VectorCopy(vec, tempForward);
      VectorMul(vec, cameraSpeed);
      VectorAdd(position, vec);
    }

    /** backward: position += steering forward * -speed. */
    method Backward(env: Env)
      requires Valid()
      modifies position
      ensures Valid() && State() == MoveBackward(old(State()), env)
    {
      var tempForward, tempUp, tempRight := Steering(env);
      var vec := new real[3];
      VectorCopy(vec, tempForward);
      VectorMul(vec, -cameraSpeed);
      VectorAdd(position, vec);
    }

    /** left: position += steering right * -speed. */
    method Left(env: Env)
      requires Valid()
      modifies position
      ensures Valid() && State() == MoveLeft(old(State()), env)
    {
      var tempForward, tempUp, tempRight := Steering(env);
      var vec := new real[3];
      VectorCopy(vec, tempRight);
      VectorMul(vec, -cameraSpeed);
      VectorAdd(position, vec);
    }

    /** right: position += steering right * speed. */
    method Right(env: Env)
      requires Valid()
      modifies position
      ensures Valid() && State() == MoveRight(old(State()), env)
    {
      var tempForward, tempUp, tempRight := Steering(env);
      var vec := new real[3];
      VectorCopy(vec, tempRight);
      VectorMul(vec, cameraSpeed);
      VectorAdd(position, vec);
    }

    /** speedUp: double below 1.0. */
    method SpeedUp()
      requires Valid()
      modifies this
      ensures Valid() && State() == CameraModel.SpeedUp(old(State()))
    {
      if cameraSpeed < 1.0 {
        cameraSpeed := cameraSpeed * 2.0;
      }
    }

    /** slowDown: halve above 0.000001. */
    method SlowDown()
      requires Valid()
      modifies this
      ensures Valid() && State() == CameraModel.SlowDown(old(State()))
    {
      if cameraSpeed > 0.000001 {
        cameraSpeed := cameraSpeed / 2.0;
      }
    }

    /** yawLeft: forward and right turned around up by turnSpeed. */
    method YawLeft(env: Env)
      requires Valid()
      modifies forwardVec, rightVec
      ensures Valid() && State() == CameraModel.YawLeft(old(State()), env)
    {
      var tempVec := new real[3];
      RotateAroundVec(forwardVec, upVec, cameraTurnSpeed, tempVec, env);
      VectorCopy(forwardVec, tempVec);
      RotateAroundVec(rightVec, upVec, cameraTurnSpeed, tempVec, env);
      VectorCopy(rightVec, tempVec);
    }

    /** yawRight: forward and right turned around up by -turnSpeed. */
    method YawRight(env: Env)
      requires Valid()
      modifies forwardVec, rightVec
      ensures Valid() && State() == CameraModel.YawRight(old(State()), env)
    {
      var tempVec := new real[3];
      RotateAroundVec(forwardVec, upVec, -cameraTurnSpeed, tempVec, env);
      VectorCopy(forwardVec, tempVec);
      RotateAroundVec(rightVec, upVec, -cameraTurnSpeed, tempVec, env);
      VectorCopy(rightVec, tempVec);
    }

    /** pointAt: aim forward at the target, take right as the horizontal
        quarter turn of it and up as forward turned around right.  Each
        component of the target is read before the same component of
        forwardVec is written, so the target may be any buffer. */
    method PointAt(targetVec: array<real>, env: Env)
      requires Valid() && targetVec.Length == 3
      requires CanPointAt(State(), Of(targetVec), env)
      modifies forwardVec, rightVec, upVec
      ensures Valid() && State() == CameraModel.PointAt(old(State()), old(Of(targetVec)), env)
    {
      ghost var s, target := State(), Of(targetVec);
      var tempVec := new real[3];
      var up := new real[3];
      VectorSet(up, 0.0, 0.0, 1.0);
      forwardVec[0] := targetVec[0] - position[0];
      forwardVec[1] := targetVec[1] - position[1];
      forwardVec[2] := targetVec[2] - position[2];
      assert Of(forwardVec) == Sub(target, s.position);
      NormalizeVec(forwardVec, env);
      ghost var forward := AimAt(s, target, env);
      RotateAroundVec(forwardVec, up, -1.57079632679, tempVec, env);
      tempVec[2] := 0.0;
      assert Of(tempVec) == Horizontal(forward, env);
      NormalizeVec(tempVec, env);
      VectorCopy(rightVec, tempVec);
      ghost var right := Of(rightVec);
      RotateAroundVec(forwardVec, rightVec, 1.57079632679, tempVec, env);
      VectorCopy(upVec, tempVec);
      assert Of(forwardVec) == forward && Of(rightVec) == right && Of(position) == s.position;
    }

    /** setMouse: project the pointer onto the trackball and store the yaw and
        pitch angles it gives. */
    method SetMouse(x: real, y: real, env: Env)
      requires Valid()
      modifies this
      ensures Valid() && State() == CameraModel.SetMouse(old(State()), x, y, env)
    {
      var px, py := CentredX(x), CentredY(y);
      var r := PointerRadius(x, y, env);
      var z: real;
      if r > 350.0 {
        px := px * 350.0 / r;
        py := py * 350.0 / r;
        z := 0.0;
      } else {
        z := env.sqrt(Lift(x, y));
      }
      mouseLeftRight := env.atanOfQuotient(px, z);
      mouseUpDown := env.asin(py / 350.0);
    }
  }
}
