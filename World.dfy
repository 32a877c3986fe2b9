/** The World object of the second exercise: the scene parameters the user can
    edit, the sequencer's fields, and the operations that update them. */
module Worlds {
  import opened AnimationStates
  import opened Sequencer

  /** The user-editable scene parameters (camera, viewport size, scales). */
  datatype SceneSettings = SceneSettings(
    xRotation: real,
    yRotation: real,
    sceneDistance: real,
    width: int,
    height: int,
    truckScale: real,
    rampHeightScale: real)

  /** Range of a camera pitch the RotationX setter accepts. */
  predicate PitchInRange(value: real) {
    0.0 <= value <= 50.0
  }

  /** Range of a light colour component the ambient setters accept. */
  predicate ComponentInRange(value: real) {
    0.0 <= value <= 1.0
  }

  class World {
    var animationState: AnimationState
    var rampAngle: int
    var rampWaitCounter: int
    var truckAngle: int
    var truckX: int
    var truckZ: int

    /** RGBA ambient colour of the reflector light; its first three entries are editable. */
    const reflectorAmbient: array<real>
    var truckScale: real
    var rampHeightScale: real
    var xRotation: real
    var yRotation: real
    var sceneDistance: real
    var width: int
    var height: int

    ghost predicate Valid()
      reads this
    {
      reflectorAmbient.Length == 4
    }

    /** The sequencer's part of the state. */
    function Animation(): Pose
      reads this
    {
      Pose(animationState, truckX, truckZ, truckAngle, rampAngle, rampWaitCounter)
    }

    /** The user-editable part of the state. */
    function Settings(): SceneSettings
      reads this
    {
      SceneSettings(xRotation, yRotation, sceneDistance, width, height, truckScale, rampHeightScale)
    }

    /** A new world: no animation, the truck at rest, the camera at its defaults. */
    constructor (width: int, height: int)
      ensures Valid() && fresh(reflectorAmbient)
      ensures Animation() == Pose(AnimationFinished, TruckDefaultX, TruckDefaultZ, TruckDefaultAngle, RampDefaultAngle, 0)
      ensures Settings() == SceneSettings(0.0, 0.0, 150.0, width, height, 1.0, 1.0)
      ensures reflectorAmbient[..] == [0.0, 0.0, 1.0, 1.0]
    {
      animationState := AnimationFinished;
      rampAngle := RampDefaultAngle;
      rampWaitCounter := 0;
      truckAngle := TruckDefaultAngle;
      truckX := TruckDefaultX;
      truckZ := TruckDefaultZ;
      reflectorAmbient := new real[4] [0.0, 0.0, 1.0, 1.0];
      truckScale := 1.0;
      rampHeightScale := 1.0;
      xRotation := 0.0;
      yRotation := 0.0;
      sceneDistance := 150.0;
      this.width := width;
      this.height := height;
    }

    /** Camera pitch: accepted only within [0, 50], otherwise ignored. */
    method SetRotationX(value: real)
      modifies this
      ensures Settings() == old(Settings()).(xRotation := if PitchInRange(value) then value else old(xRotation))
      ensures Animation() == old(Animation())
    {
      if 0.0 <= value && value <= 50.0 {
        xRotation := value;
      }
    }

    /** Camera yaw: any value is accepted. */
    method SetRotationY(value: real)
      modifies this
      ensures Settings() == old(Settings()).(yRotation := value)
      ensures Animation() == old(Animation())
    {
      yRotation := value;
    }

    /** Distance of the scene from the camera: any value is accepted. */
    method SetSceneDistance(value: real)
      modifies this
      ensures Settings() == old(Settings()).(sceneDistance := value)
      ensures Animation() == old(Animation())
    {
      sceneDistance := value;
    }

    method SetWidth(value: int)
      modifies this
      ensures Settings() == old(Settings()).(width := value)
      ensures Animation() == old(Animation())
    {
      width := value;
    }

    method SetHeight(value: int)
      modifies this
      ensures Settings() == old(Settings()).(height := value)
      ensures Animation() == old(Animation())
    {
      height := value;
    }

    /** Truck scale: accepted only when positive, otherwise ignored. */
    method SetTruckScale(value: real)
      modifies this
      ensures Settings() == old(Settings()).(truckScale := if 0.0 < value then value else old(truckScale))
      ensures Animation() == old(Animation())
    {
      if value > 0.0 {
        truckScale := value;
      }
    }

    /** Ramp height scale: accepted only when positive, otherwise ignored. */
    method SetRampHeightScale(value: real)
      modifies this
      ensures Settings() == old(Settings()).(rampHeightScale := if 0.0 < value then value else old(rampHeightScale))
      ensures Animation() == old(Animation())
    {
      if value > 0.0 {
        rampHeightScale := value;
      }
    }

    /** Shared body of the three ambient setters: writes entry i, and only
        entry i, when the value is a valid colour component. */
    method SetAmbientComponent(i: nat, value: real)
      requires Valid() && i < 3
      modifies reflectorAmbient
      ensures reflectorAmbient[..] ==
                if ComponentInRange(value) then old(reflectorAmbient[..])[i := value] else old(reflectorAmbient[..])
    {
      if value >= 0.0 && value <= 1.0 {
        reflectorAmbient[i] := value;
      }
    }

    method SetAmbientRedComponent(value: real)
      requires Valid()
      modifies reflectorAmbient
      ensures reflectorAmbient[..] ==
                if ComponentInRange(value) then old(reflectorAmbient[..])[0 := value] else old(reflectorAmbient[..])
      ensures Settings() == old(Settings()) && Animation() == old(Animation())
    {
      SetAmbientComponent(0, value);
    }

    method SetAmbientGreenComponent(value: real)
      requires Valid()
      modifies reflectorAmbient
      ensures reflectorAmbient[..] ==
                if ComponentInRange(value) then old(reflectorAmbient[..])[1 := value] else old(reflectorAmbient[..])
      ensures Settings() == old(Settings()) && Animation() == old(Animation())
    {
      SetAmbientComponent(1, value);
    }

    method SetAmbientBlueComponent(value: real)
      requires Valid()
      modifies reflectorAmbient
      ensures reflectorAmbient[..] ==
                if ComponentInRange(value) then old(reflectorAmbient[..])[2 := value] else old(reflectorAmbient[..])
      ensures Settings() == old(Settings()) && Animation() == old(Animation())
    {
      SetAmbientComponent(2, value);
    }

    /** The field updates of Resize: the new viewport size, nothing else. */
    method Resize(width: int, height: int)
      modifies this
      ensures Settings() == old(Settings()).(width := width, height := height)
      ensures Animation() == old(Animation())
    {
      this.width := width;
      this.height := height;
    }

    /** Resets the camera, the truck scale and the sequencer fields and enters
        TruckArriving; the ramp height scale and the viewport size are kept. */
    method StartAnimation()
      modifies this
      ensures Animation() == StartPose
      ensures Settings() == old(Settings()).(xRotation := 0.0, yRotation := 0.0, sceneDistance := 150.0, truckScale := 1.0)
    {
      sceneDistance := 150.0;
      xRotation := 0.0;
      yRotation := 0.0;
      rampWaitCounter := 0;
      truckScale := 1.0;
      rampAngle := 0;
      truckAngle := -90;
      truckX := 400;
      truckZ := 0;
      animationState := TruckArriving;
    }

    /** Snaps the ramp angle and the truck's angle and position back to their
        rest values and forces AnimationFinished, from whatever state; the wait
        counter and all scene settings are left as they are. */
    method StopAnimation()
      modifies this
      ensures Animation() == Stopped(old(Animation()))
      ensures Settings() == old(Settings())
    {
      rampAngle := RampDefaultAngle;
      truckAngle := TruckDefaultAngle;
      truckX := TruckDefaultX;
      truckZ := TruckDefaultZ;
      animationState := AnimationFinished;
    }

    /** One timer tick of the sequencer, as the state switch of AnimationStep. */
    method Step()
      modifies this
      ensures Animation() == Tick(old(Animation()))
      ensures Settings() == old(Settings())
    {
      match animationState {
        case TruckArriving =>
          truckX := truckX - 5;
          if truckX <= 0 {
            animationState := TruckTurning;
          }
        case TruckTurning =>
          truckAngle := truckAngle - 5;
          if truckAngle <= -180 {
            animationState := TruckTowardsRamp;
          }
        case TruckTowardsRamp =>
          truckZ := truckZ - 5;
          if truckZ <= -40 {
            animationState := RampRising;
          }
        case RampRising =>
          rampAngle := rampAngle + 1;
          if rampAngle >= 25 {
            animationState := RampWait;
          }
        case RampWait =>
          rampWaitCounter := rampWaitCounter + 1;
          if rampWaitCounter >= 30 {
            animationState := RampLowering;
          }
        case RampLowering =>
          rampAngle := rampAngle - 1;
          if rampAngle <= 0 {
            animationState := TruckAwayFromRamp;
          }
        case TruckAwayFromRamp =>
          truckZ := truckZ + 5;
          if truckZ >= 0 {
            animationState := TruckTurningBack;
          }
        case TruckTurningBack =>
          truckAngle := truckAngle + 5;
          if truckAngle >= -90 {
            animationState := TruckLeaving;
          }
        case TruckLeaving =>
          truckX := truckX - 5;
          if truckX <= -1000 {
            animationState := AnimationFinished;
          }
        case AnimationFinished =>
      }
    }

    /** A whole animation: StartAnimation, then timer ticks until the sequencer
        reports AnimationFinished. Returns the number of ticks, which is always
        412, and the truck ends at x = -1000, back at its rest angle, with the
        ramp down. */
    method Animate() returns (ticks: nat)
      modifies this
      ensures ticks == RunTicks
      ensures Animation() == Pose(AnimationFinished, -1000, 0, -90, 0, 30)
      ensures Settings() == old(Settings()).(xRotation := 0.0, yRotation := 0.0, sceneDistance := 150.0, truckScale := 1.0)
    {
      StartAnimation();
      ghost var started := Settings();
      ticks := 0;
      while animationState != AnimationFinished
        invariant ticks <= RunTicks
        invariant Animation() == Iterate(StartPose, ticks)
        invariant Settings() == started
        decreases RunTicks - ticks
      {
        RunLength(ticks);
        Step();
        ticks := ticks + 1;
      }
      RunLength(ticks);
      RunFollowsSchedule(ticks);
    }
  }
}
