/** The engine's orbit-style camera: the camera itself, the controller that
    turns pending key presses into eye movement once per frame, and the
    uniform block uploaded to the GPU. */
module Camera {
  import opened Vectors

  datatype CameraMovement = Forward | Backward | Left | Right

  /** A 4x4 matrix as four columns, the layout of `[[f32; 4]; 4]`. */
  datatype Mat4 = Mat4(c0: Vec4, c1: Vec4, c2: Vec4, c3: Vec4)

  const Identity4 := Mat4(Vec4(1.0, 0.0, 0.0, 0.0), Vec4(0.0, 1.0, 0.0, 0.0),
                          Vec4(0.0, 0.0, 1.0, 0.0), Vec4(0.0, 0.0, 0.0, 1.0))

  /** A point in homogeneous coordinates (cgmath's `to_homogeneous`). */
  function Homogeneous(p: Vec3): Vec4 {
    Vec4(p.x, p.y, p.z, 1.0)
  }

  class Camera {
    var eye: Vec3
    var target: Vec3
    var up: Vec3
    var aspect: real
    var fovy: real
    var znear: real
    var zfar: real

    constructor (eye: Vec3, target: Vec3, up: Vec3, aspect: real, fovy: real, znear: real, zfar: real)
      ensures this.eye == eye && this.target == target && this.up == up
      ensures this.aspect == aspect && this.fovy == fovy && this.znear == znear && this.zfar == zfar
    {
      this.eye, this.target, this.up := eye, target, up;
      this.aspect, this.fovy, this.znear, this.zfar := aspect, fovy, znear, zfar;
    }
  }

  class CameraUniform {
    var viewProj: Mat4
    var viewPosition: Vec4

    /** Identity projection, eye at the homogeneous zero. */
    constructor ()
      ensures viewProj == Identity4
      ensures viewPosition == Vec4(0.0, 0.0, 0.0, 0.0)
    {
      viewProj := Identity4;
      viewPosition := Vec4(0.0, 0.0, 0.0, 0.0);
    }

    /** Stores the camera's view-projection matrix, which cgmath builds and is
        passed in here, and the camera's eye as a homogeneous point. */
    method UpdateViewProj(camera: Camera, viewProjection: Mat4)
      modifies this
      ensures viewProj == viewProjection
      ensures viewPosition == Vec4(camera.eye.x, camera.eye.y, camera.eye.z, 1.0)
    {
      viewProj := viewProjection;
      viewPosition := Homogeneous(camera.eye);
    }
  }

  // ---------------------------------------------------------------------
  // What one frame of `update_camera` does to the eye.

  /** The unit vector from the eye towards the target. */
  function ForwardDir(norm: Vec3 -> real, eye: Vec3, target: Vec3): (fn: Vec3)
    requires IsMagnitude(norm) && eye != target
    ensures norm(fn) == 1.0
    ensures Sub(target, eye) == Scale(fn, norm(Sub(target, eye)))
    ensures norm(Sub(target, eye)) > 0.0
  {
    var f := Sub(target, eye);
    NormalizedIsUnit(norm, f);
    QuotientProduct(1.0, norm(f));
    ScaleScale(f, 1.0 / norm(f), norm(f));
    ScaleOne(f);
    Normalize(norm, f)
  }

  /** The eye after the forward and backward keys, before any strafing. */
  function SteppedEye(norm: Vec3 -> real, eye: Vec3, target: Vec3, speed: real,
                      moves: seq<CameraMovement>): Vec3
    requires IsMagnitude(norm) && eye != target
  {
    var fn := ForwardDir(norm, eye, target);
    var e1 := if Forward in moves && norm(Sub(target, eye)) > speed then Add(eye, Scale(fn, speed)) else eye;
    if Backward in moves then Sub(e1, Scale(fn, speed)) else e1
  }

  /** The distance to the target that the forward and backward keys leave,
      starting from distance `m`. */
  function StepDistance(m: real, speed: real, moves: seq<CameraMovement>): real {
    (if Forward in moves && m > speed then m - speed else m) + (if Backward in moves then speed else 0.0)
  }

  /** The eye after strafing: `target` minus the normalised `dir`, stretched
      to the magnitude of `forward`. */
  function StrafedEye(norm: Vec3 -> real, target: Vec3, forward: Vec3, dir: Vec3): Vec3
    requires IsMagnitude(norm) && dir != Zero3
  {
    MagnitudePositive(norm, dir);
    Sub(target, Scale(Normalize(norm, dir), norm(forward)))
  }

  /** The eye after one frame of `update_camera` with the pending keys `moves`. */
  function UpdatedEye(norm: Vec3 -> real, eye: Vec3, target: Vec3, up: Vec3, speed: real,
                      moves: seq<CameraMovement>): Vec3
    requires IsMagnitude(norm) && eye != target && speed >= 0.0
  {
    var fn := ForwardDir(norm, eye, target);
    var e1 := SteppedEye(norm, eye, target, speed, moves);
    var right := Cross(fn, up);
    var forward := Sub(target, e1);
    StrafeDefined(norm, eye, target, up, speed, moves);
    var e2 := if Right in moves then StrafedEye(norm, target, forward, Add(forward, Scale(right, speed))) else e1;
    if Left in moves then StrafedEye(norm, target, forward, Sub(forward, Scale(right, speed))) else e2
  }

  /** The forward and backward keys move the eye along the line of sight:
      afterwards the target is `StepDistance` away in the same direction. */
  lemma SteppedAlongForward(norm: Vec3 -> real, eye: Vec3, target: Vec3, speed: real,
                            moves: seq<CameraMovement>)
    requires IsMagnitude(norm) && eye != target
    ensures Sub(target, SteppedEye(norm, eye, target, speed, moves))
            == Scale(ForwardDir(norm, eye, target), StepDistance(norm(Sub(target, eye)), speed, moves))
  {
    var fn := ForwardDir(norm, eye, target);
    var m := norm(Sub(target, eye));
    var w := Scale(fn, speed);
    var stepped := Forward in moves && m > speed;
    var e1 := if stepped then Add(eye, w) else eye;
    var c1 := if stepped then m - speed else m;
    assert Sub(target, e1) == Scale(fn, c1) by {
      if stepped {
        SubSub(target, eye, w);
        ScaleSum(fn, m, speed);
      }
    }
    if Backward in moves {
      SubSub(target, e1, w);
      ScaleSum(fn, c1, speed);
    }
  }

  /** With a non-negative speed the forward and backward keys never take the
      eye onto the target. */
  lemma StepDistancePositive(m: real, speed: real, moves: seq<CameraMovement>)
    requires m > 0.0 && speed >= 0.0
    ensures StepDistance(m, speed, moves) > 0.0
  {}

  /** Neither strafing direction is the zero vector, so both can be normalised. */
  lemma StrafeDefined(norm: Vec3 -> real, eye: Vec3, target: Vec3, up: Vec3, speed: real,
                      moves: seq<CameraMovement>)
    requires IsMagnitude(norm) && eye != target && speed >= 0.0
    ensures var fn := ForwardDir(norm, eye, target);
            var forward := Sub(target, SteppedEye(norm, eye, target, speed, moves));
            && Add(forward, Scale(Cross(fn, up), speed)) != Zero3
            && Sub(forward, Scale(Cross(fn, up), speed)) != Zero3
  {
    var fn := ForwardDir(norm, eye, target);
    var m := norm(Sub(target, eye));
    SteppedAlongForward(norm, eye, target, speed, moves);
    StepDistancePositive(m, speed, moves);
    CrossOrthogonal(fn, up);
    OffsetNonZero(norm, fn, StepDistance(m, speed, moves), Cross(fn, up), speed);
  }

  /** Strafing puts the eye at the distance `forward` had from the target. */
  lemma StrafedDistance(norm: Vec3 -> real, target: Vec3, forward: Vec3, dir: Vec3)
    requires IsMagnitude(norm) && dir != Zero3
    ensures norm(Sub(target, StrafedEye(norm, target, forward, dir))) == norm(forward)
  {
    assert MagnitudeAt(norm, forward);
    NormalizedIsUnit(norm, dir);
    var u := Normalize(norm, dir);
    SubSub(target, target, Scale(u, norm(forward)));
    MagnitudeScale(norm, u, norm(forward));
  }

  /** Whatever keys are pending, the frame leaves the eye `StepDistance` away
      from the target: strafing keeps the distance. */
  lemma TargetDistance(norm: Vec3 -> real, eye: Vec3, target: Vec3, up: Vec3, speed: real,
                       moves: seq<CameraMovement>)
    requires IsMagnitude(norm) && eye != target && speed >= 0.0
    ensures norm(Sub(target, UpdatedEye(norm, eye, target, up, speed, moves)))
            == StepDistance(norm(Sub(target, eye)), speed, moves)
  {
    var fn := ForwardDir(norm, eye, target);
    var m := norm(Sub(target, eye));
    var e1 := SteppedEye(norm, eye, target, speed, moves);
    var forward := Sub(target, e1);
    var right := Cross(fn, up);
    SteppedAlongForward(norm, eye, target, speed, moves);
    StepDistancePositive(m, speed, moves);
    MagnitudeScale(norm, fn, StepDistance(m, speed, moves));
    StrafeDefined(norm, eye, target, up, speed, moves);
    if Left in moves {
      StrafedDistance(norm, target, forward, Sub(forward, Scale(right, speed)));
    } else if Right in moves {
      StrafedDistance(norm, target, forward, Add(forward, Scale(right, speed)));
    }
  }

  /** The frame never puts the eye onto the target, so the next frame's
      `update_camera` is defined again. */
  lemma EyeOffTarget(norm: Vec3 -> real, eye: Vec3, target: Vec3, up: Vec3, speed: real,
                     moves: seq<CameraMovement>)
    requires IsMagnitude(norm) && eye != target && speed >= 0.0
    ensures UpdatedEye(norm, eye, target, up, speed, moves) != target
  {
    TargetDistance(norm, eye, target, up, speed, moves);
    StepDistancePositive(norm(Sub(target, eye)), speed, moves);
    assert MagnitudeAt(norm, Zero3);
    if UpdatedEye(norm, eye, target, up, speed, moves) == target {
      assert Sub(target, target) == Zero3;
      ZeroProduct(norm(Zero3), norm(Zero3));
    }
  }

  /** The forward key alone, with the target farther than `speed`, moves the
      eye exactly `speed` towards the target. */
  lemma ForwardStep(norm: Vec3 -> real, eye: Vec3, target: Vec3, speed: real,
                    moves: seq<CameraMovement>)
    requires IsMagnitude(norm) && eye != target && speed >= 0.0
    requires Forward in moves && Backward !in moves && norm(Sub(target, eye)) > speed
    ensures SteppedEye(norm, eye, target, speed, moves) == Add(eye, Scale(ForwardDir(norm, eye, target), speed))
    ensures norm(Sub(SteppedEye(norm, eye, target, speed, moves), eye)) == speed
    ensures norm(Sub(target, SteppedEye(norm, eye, target, speed, moves))) == norm(Sub(target, eye)) - speed
  {
    var fn := ForwardDir(norm, eye, target);
    SubAddCancel(eye, Scale(fn, speed));
    MagnitudeScale(norm, fn, speed);
    SteppedAlongForward(norm, eye, target, speed, moves);
    MagnitudeScale(norm, fn, norm(Sub(target, eye)) - speed);
  }

  /** The forward key does nothing once the target is within `speed`. */
  lemma ForwardBlocked(norm: Vec3 -> real, eye: Vec3, target: Vec3, speed: real,
                       moves: seq<CameraMovement>)
    requires IsMagnitude(norm) && eye != target
    requires Backward !in moves && norm(Sub(target, eye)) <= speed
    ensures SteppedEye(norm, eye, target, speed, moves) == eye
  {}

  /** Forward and backward together cancel when the forward step is taken;
      otherwise only the backward step happens. */
  lemma ForwardBackwardCancel(norm: Vec3 -> real, eye: Vec3, target: Vec3, speed: real,
                              moves: seq<CameraMovement>)
    requires IsMagnitude(norm) && eye != target
    requires Forward in moves && Backward in moves
    ensures norm(Sub(target, eye)) > speed ==> SteppedEye(norm, eye, target, speed, moves) == eye
    ensures norm(Sub(target, eye)) <= speed ==>
              SteppedEye(norm, eye, target, speed, moves) == Sub(eye, Scale(ForwardDir(norm, eye, target), speed))
  {
    SubAddCancel(eye, Scale(ForwardDir(norm, eye, target), speed));
  }

  /** When both strafing keys are pending, the left one wins. */
  lemma LeftOverridesRight(norm: Vec3 -> real, eye: Vec3, target: Vec3, up: Vec3, speed: real,
                           moves: seq<CameraMovement>)
    requires IsMagnitude(norm) && eye != target && speed >= 0.0
    requires Left in moves
    ensures UpdatedEye(norm, eye, target, up, speed, moves + [Right])
            == UpdatedEye(norm, eye, target, up, speed, moves)
  {
    assert forall d :: d in moves + [Right] <==> d in moves || d == Right;
  }

  /** Only which keys are pending matters, not their order or repetition. */
  lemma OnlyMembershipMatters(norm: Vec3 -> real, eye: Vec3, target: Vec3, up: Vec3, speed: real,
                              moves1: seq<CameraMovement>, moves2: seq<CameraMovement>)
    requires IsMagnitude(norm) && eye != target && speed >= 0.0
    requires forall d :: d in moves1 <==> d in moves2
    ensures UpdatedEye(norm, eye, target, up, speed, moves1) == UpdatedEye(norm, eye, target, up, speed, moves2)
  {
    assert Forward in moves1 <==> Forward in moves2;
    assert Backward in moves1 <==> Backward in moves2;
    assert Left in moves1 <==> Left in moves2;
    assert Right in moves1 <==> Right in moves2;
  }

  /** Without pending keys the eye stays put. */
  lemma NoInputNoMove(norm: Vec3 -> real, eye: Vec3, target: Vec3, up: Vec3, speed: real)
    requires IsMagnitude(norm) && eye != target && speed >= 0.0
    ensures UpdatedEye(norm, eye, target, up, speed, []) == eye
  {}

  class CameraController {
    var speed: real
    var position: Vec3
    var movement: seq<CameraMovement>

    constructor (speed: real)
      ensures this.speed == speed && position == Zero3 && movement == []
    {
      this.speed := speed;
      position := Zero3;
      movement := [];
    }

    /** Records a key press for the next frame. */
    method ProcessKeyboard(direction: CameraMovement)
      modifies this`movement
      ensures movement == old(movement) + [direction]
      ensures speed == old(speed) && position == old(position)
    {
      movement := movement + [direction];
    }

    /** The first half of `update_camera`: the forward and backward keys move
        the eye along the line of sight; the unit line of sight is returned. */
    method StepAlongSight(camera: Camera, norm: Vec3 -> real) returns (forwardNorm: Vec3)
      requires IsMagnitude(norm) && camera.eye != camera.target
      modifies camera`eye
      ensures forwardNorm == ForwardDir(norm, old(camera.eye), camera.target)
      ensures camera.eye == SteppedEye(norm, old(camera.eye), camera.target, speed, movement)
    {
      var forward := Sub(camera.target, camera.eye);
      MagnitudePositive(norm, forward);
      forwardNorm := Normalize(norm, forward);
      var forwardMag := norm(forward);
      if Forward in movement && forwardMag > speed {
        camera.eye := Add(camera.eye, Scale(forwardNorm, speed));
      }
      if Backward in movement {
        camera.eye := Sub(camera.eye, Scale(forwardNorm, speed));
      }
    }

    /** The second half of `update_camera`: the right and then the left key
        turn the eye about the target, both from the distance and direction
        the first half left. */
    method Strafe(camera: Camera, norm: Vec3 -> real, ghost eye0: Vec3, forwardNorm: Vec3)
      requires IsMagnitude(norm) && eye0 != camera.target && speed >= 0.0
      requires forwardNorm == ForwardDir(norm, eye0, camera.target)
      requires camera.eye == SteppedEye(norm, eye0, camera.target, speed, movement)
      modifies camera`eye
      ensures camera.eye == UpdatedEye(norm, eye0, camera.target, camera.up, speed, movement)
    {
      var right := Cross(forwardNorm, camera.up);
      var forward := Sub(camera.target, camera.eye);
      var forwardMag := norm(forward);
      StrafeDefined(norm, eye0, camera.target, camera.up, speed, movement);
      if Right in movement {
        var dir := Add(forward, Scale(right, speed));
        MagnitudePositive(norm, dir);
        camera.eye := Sub(camera.target, Scale(Normalize(norm, dir), forwardMag));
      }
      if Left in movement {
        var dir := Sub(forward, Scale(right, speed));
        MagnitudePositive(norm, dir);
        camera.eye := Sub(camera.target, Scale(Normalize(norm, dir), forwardMag));
      }
    }

    /** Moves the camera's eye according to the pending key presses and
        forgets them. */
    method UpdateCamera(camera: Camera, norm: Vec3 -> real)
      requires IsMagnitude(norm) && camera.eye != camera.target && speed >= 0.0
      modifies this`movement, camera`eye
      ensures camera.eye == UpdatedEye(norm, old(camera.eye), camera.target, camera.up, speed, old(movement))
      ensures camera.eye != camera.target
      ensures movement == []
      ensures speed == old(speed) && position == old(position)
      ensures camera.target == old(camera.target) && camera.up == old(camera.up)
      ensures camera.aspect == old(camera.aspect) && camera.fovy == old(camera.fovy)
      ensures camera.znear == old(camera.znear) && camera.zfar == old(camera.zfar)
    {
      ghost var eye0 := camera.eye;
      var forwardNorm := StepAlongSight(camera, norm);
      Strafe(camera, norm, eye0, forwardNorm);
      EyeOffTarget(norm, eye0, camera.target, camera.up, speed, movement);
      movement := [];
    }
  }
}
