/** The animation sequencer as values: the five parameters it drives, the
    rule of one timer tick written as a transition table, and
    the closed-form schedule of a whole run from StartAnimation. */
module Sequencer {
  import opened AnimationStates

  /** Rest values of the driven parameters (World.cs fields rampDefaultAngle,
      truckDefaultAngle, truckDefaultX, truckDefaultZ). */
  const RampDefaultAngle: int := 0
  const TruckDefaultAngle: int := -90
  const TruckDefaultX: int := 60
  const TruckDefaultZ: int := 0

  /** The state tag and the five parameters the sequencer updates. All values
      it reaches are small multiples of 1 or 5, exact in single precision. */
  datatype Pose = Pose(
    state: AnimationState,
    truckX: int,
    truckZ: int,
    truckAngle: int,
    rampAngle: int,
    rampWaitCounter: int)

  /** The pose StartAnimation seeds. */
  const StartPose: Pose := Pose(TruckArriving, 400, 0, -90, 0, 0)

  /** Names of the driven parameters. */
  datatype Param = TruckX | TruckZ | TruckAngle | RampAngle | RampWaitCounter

  function Get(p: Pose, q: Param): int {
    match q
    case TruckX => p.truckX
    case TruckZ => p.truckZ
    case TruckAngle => p.truckAngle
    case RampAngle => p.rampAngle
    case RampWaitCounter => p.rampWaitCounter
  }

  function Set(p: Pose, q: Param, v: int): (r: Pose)
    ensures r.state == p.state
    ensures Get(r, q) == v
    ensures forall q' :: q' != q ==> Get(r, q') == Get(p, q')
  {
    match q
    case TruckX => p.(truckX := v)
    case TruckZ => p.(truckZ := v)
    case TruckAngle => p.(truckAngle := v)
    case RampAngle => p.(rampAngle := v)
    case RampWaitCounter => p.(rampWaitCounter := v)
  }

  /** The transition table: the parameter a running state drives, ... */
  function Drives(s: AnimationState): Param
    requires IsRunning(s)
  {
    match s
    case TruckArriving => TruckX
    case TruckTurning => TruckAngle
    case TruckTowardsRamp => TruckZ
    case RampRising => RampAngle
    case RampWait => RampWaitCounter
    case RampLowering => RampAngle
    case TruckAwayFromRamp => TruckZ
    case TruckTurningBack => TruckAngle
    case TruckLeaving => TruckX
  }

  /** ... the amount it adds to that parameter on every tick, ... */
  function Delta(s: AnimationState): int
    requires IsRunning(s)
  {
    match s
    case TruckArriving => -5
    case TruckTurning => -5
    case TruckTowardsRamp => -5
    case RampRising => 1
    case RampWait => 1
    case RampLowering => -1
    case TruckAwayFromRamp => 5
    case TruckTurningBack => 5
    case TruckLeaving => -5
  }

  /** ... and the value at which it moves on to the next state. */
  function Threshold(s: AnimationState): int
    requires IsRunning(s)
  {
    match s
    case TruckArriving => 0
    case TruckTurning => -180
    case TruckTowardsRamp => -40
    case RampRising => 25
    case RampWait => 30
    case RampLowering => 0
    case TruckAwayFromRamp => 0
    case TruckTurningBack => -90
    case TruckLeaving => -1000
  }

  /** The exit test: a decreasing parameter has reached its threshold when it is
      at or below it, an increasing one when it is at or above it. */
  predicate Reached(s: AnimationState, v: int)
    requires IsRunning(s)
  {
    if Delta(s) < 0 then v <= Threshold(s) else Threshold(s) <= v
  }

  /** One timer tick: update the driven parameter, then test it against the
      threshold in the same tick. AnimationFinished does nothing. */
  function Tick(p: Pose): Pose {
    if !IsRunning(p.state) then p
    else
      var s := p.state;
      var v := Get(p, Drives(s)) + Delta(s);
      Set(p, Drives(s), v).(state := if Reached(s, v) then Next(s) else s)
  }

  /** A tick in a running state changes only that state's own parameter, by
      exactly 5 for the truck's position and angle and by exactly 1 for the
      ramp angle and the wait counter. */
  lemma TickChangesOnlyDriven(p: Pose)
    requires IsRunning(p.state)
    ensures Get(Tick(p), Drives(p.state)) == Get(p, Drives(p.state)) + Delta(p.state)
    ensures forall q :: q != Drives(p.state) ==> Get(Tick(p), q) == Get(p, q)
    ensures Drives(p.state) in {RampAngle, RampWaitCounter} ==> Delta(p.state) in {1, -1}
    ensures Drives(p.state) in {TruckX, TruckZ, TruckAngle} ==> Delta(p.state) in {5, -5}
  {
  }

  /** A tick either keeps the state or moves to its successor, and it moves
      exactly when the updated parameter has reached the threshold; the run
      never goes back to an earlier state. */
  lemma TickSuccession(p: Pose)
    ensures Tick(p).state == p.state || (IsRunning(p.state) && Tick(p).state == Next(p.state))
    ensures IsRunning(p.state) ==>
              (Tick(p).state == Next(p.state) <==> Reached(p.state, Get(Tick(p), Drives(p.state))))
    ensures RunRank(p.state) <= RunRank(Tick(p).state) <= RunRank(p.state) + 1
  {
  }

  /** AnimationFinished is a fixed point of the tick. */
  lemma FinishedIsFixed(p: Pose)
    requires p.state == AnimationFinished
    ensures Tick(p) == p
  {
  }

  /** The pose after n ticks. */
  function Iterate(p: Pose, n: nat): Pose
    decreases n
  {
    if n == 0 then p else Tick(Iterate(p, n - 1))
  }

  /** Along any sequence of ticks, from any pose, the run rank never decreases:
      no earlier state is re-entered. */
  lemma {:induction false} NoReentry(p: Pose, i: nat, j: nat)
    requires i <= j
    ensures RunRank(Iterate(p, i).state) <= RunRank(Iterate(p, j).state)
  {
    if i < j {
      NoReentry(p, i, j - 1);
      TickSuccession(Iterate(p, j - 1));
    }
  }

  /** Number of ticks a run from StartAnimation spends in each running state. */
  function Duration(s: AnimationState): nat
    requires IsRunning(s)
  {
    match s
    case TruckArriving => 80
    case TruckTurning => 18
    case TruckTowardsRamp => 8
    case RampRising => 25
    case RampWait => 30
    case RampLowering => 25
    case TruckAwayFromRamp => 8
    case TruckTurningBack => 18
    case TruckLeaving => 200
  }

  /** The tick at which a run from StartAnimation enters a state. */
  function PhaseStart(s: AnimationState): nat {
    match s
    case TruckArriving => 0
    case TruckTurning => 80
    case TruckTowardsRamp => 98
    case RampRising => 106
    case RampWait => 131
    case RampLowering => 161
    case TruckAwayFromRamp => 186
    case TruckTurningBack => 194
    case TruckLeaving => 212
    case AnimationFinished => 412
  }

  /** Length of a whole run from StartAnimation. */
  const RunTicks: nat := 412

  /** Closed form of the pose k ticks after StartAnimation, phase by phase. */
  function Schedule(k: nat): Pose {
    if k < PhaseStart(TruckTurning) then
      Pose(TruckArriving, 400 - 5 * k, 0, -90, 0, 0)
    else if k < PhaseStart(TruckTowardsRamp) then
      Pose(TruckTurning, 0, 0, -90 - 5 * (k - PhaseStart(TruckTurning)), 0, 0)
    else if k < PhaseStart(RampRising) then
      Pose(TruckTowardsRamp, 0, -5 * (k - PhaseStart(TruckTowardsRamp)), -180, 0, 0)
    else if k < PhaseStart(RampWait) then
      Pose(RampRising, 0, -40, -180, k - PhaseStart(RampRising), 0)
    else if k < PhaseStart(RampLowering) then
      Pose(RampWait, 0, -40, -180, 25, k - PhaseStart(RampWait))
    else if k < PhaseStart(TruckAwayFromRamp) then
      Pose(RampLowering, 0, -40, -180, 25 - (k - PhaseStart(RampLowering)), 30)
    else if k < PhaseStart(TruckTurningBack) then
      Pose(TruckAwayFromRamp, 0, -40 + 5 * (k - PhaseStart(TruckAwayFromRamp)), -180, 0, 30)
    else if k < PhaseStart(TruckLeaving) then
      Pose(TruckTurningBack, 0, 0, -180 + 5 * (k - PhaseStart(TruckTurningBack)), 0, 30)
    else if k < PhaseStart(AnimationFinished) then
      Pose(TruckLeaving, -5 * (k - PhaseStart(TruckLeaving)), 0, -90, 0, 30)
    else
      Pose(AnimationFinished, -1000, 0, -90, 0, 30)
  }

  /** One tick advances the schedule by one. */
  lemma ScheduleTick(k: nat)
    ensures Tick(Schedule(k)) == Schedule(k + 1)
  {
    if k < 80 {
    } else if k < 98 {
    } else if k < 106 {
    } else if k < 131 {
    } else if k < 161 {
    } else if k < 186 {
    } else if k < 194 {
    } else if k < 212 {
    } else if k < 412 {
    }
  }

  /** k ticks after StartAnimation the pose is exactly Schedule(k). */
  lemma {:induction false} RunFollowsSchedule(k: nat)
    ensures Iterate(StartPose, k) == Schedule(k)
  {
    if k == 0 {
      assert Schedule(0) == StartPose;
    } else {
      calc {
        Iterate(StartPose, k);
      ==
        Tick(Iterate(StartPose, k - 1));
      == { RunFollowsSchedule(k - 1); }
        Tick(Schedule(k - 1));
      == { ScheduleTick(k - 1); }
        Schedule(k);
      }
    }
  }

  /** A run from StartAnimation is in a running state s exactly during the
      Duration(s) ticks that start at PhaseStart(s), and it enters the states in
      order: the next one starts where the previous one ends. */
  lemma RunPhase(s: AnimationState, k: nat)
    requires IsRunning(s)
    ensures PhaseStart(Next(s)) == PhaseStart(s) + Duration(s)
    ensures Iterate(StartPose, k).state == s <==> PhaseStart(s) <= k < PhaseStart(s) + Duration(s)
  {
    RunFollowsSchedule(k);
  }

  /** A run from StartAnimation reaches AnimationFinished after exactly 412 ticks
      (80 + 18 + 8 + 25 + 30 + 25 + 8 + 18 + 200) and is running before that. */
  lemma RunLength(k: nat)
    ensures RunTicks == PhaseStart(AnimationFinished)
    ensures Iterate(StartPose, k).state == AnimationFinished <==> k >= RunTicks
  {
    RunFollowsSchedule(k);
  }

  /** During a run, the ramp angle stays in [0, 25] and the wait counter in [0, 30]. */
  lemma RampBounds(k: nat)
    ensures 0 <= Iterate(StartPose, k).rampAngle <= 25
    ensures 0 <= Iterate(StartPose, k).rampWaitCounter <= 30
  {
    RunFollowsSchedule(k);
  }

  /** The ramp is fully raised exactly from the entry into RampWait to the entry
      into RampLowering, and fully down exactly until the entry into RampRising
      and again from the entry into TruckAwayFromRamp on. */
  lemma RampPeak(k: nat)
    ensures Iterate(StartPose, k).rampAngle == 25 <==>
              PhaseStart(RampWait) <= k <= PhaseStart(RampLowering)
    ensures Iterate(StartPose, k).rampAngle == 0 <==>
              k <= PhaseStart(RampRising) || PhaseStart(TruckAwayFromRamp) <= k
  {
    RunFollowsSchedule(k);
  }

  /** At the entry into RampWait the ramp angle is 25, at the entry into
      TruckAwayFromRamp it is 0 again, and TruckLeaving begins with the truck
      back at x = 0 and angle -90. */
  lemma PhaseEntryValues()
    ensures Iterate(StartPose, PhaseStart(RampWait)).rampAngle == 25
    ensures Iterate(StartPose, PhaseStart(TruckAwayFromRamp)).rampAngle == 0
    ensures Iterate(StartPose, PhaseStart(TruckLeaving)) == Pose(TruckLeaving, 0, 0, -90, 0, 30)
  {
    RunFollowsSchedule(PhaseStart(RampWait));
    RunFollowsSchedule(PhaseStart(TruckAwayFromRamp));
    RunFollowsSchedule(PhaseStart(TruckLeaving));
  }

  /** The pose StopAnimation leaves: the four rest values and AnimationFinished;
      the wait counter is not reset. */
  function Stopped(p: Pose): (r: Pose)
    ensures Tick(r) == r
    ensures r.rampWaitCounter == p.rampWaitCounter
  {
    Pose(AnimationFinished, TruckDefaultX, TruckDefaultZ, TruckDefaultAngle, RampDefaultAngle, p.rampWaitCounter)
  }

  /** After a stop, ticks change nothing; stopping twice is stopping once; and
      the stopped pose does not depend on the state or the parameters stopped
      from, only on the wait counter. */
  lemma StoppedIsRest(p: Pose, n: nat)
    ensures Iterate(Stopped(p), n) == Stopped(p)
    ensures Stopped(Stopped(p)) == Stopped(p)
    ensures forall q: Pose :: q.rampWaitCounter == p.rampWaitCounter ==> Stopped(q) == Stopped(p)
  {
    if n > 0 {
      StoppedIsRest(p, n - 1);
    }
  }
}
