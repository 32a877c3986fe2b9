/** The ten states of the truck/ramp animation, in their declaration order.
    The first one, AnimationFinished, is the state of the world before any
    animation has been started and the state a finished or stopped run ends in. */
module AnimationStates {

  datatype AnimationState =
    | AnimationFinished
    | TruckArriving
    | TruckTurning
    | TruckTowardsRamp
    | RampRising
    | RampWait
    | RampLowering
    | TruckAwayFromRamp
    | TruckTurningBack
    | TruckLeaving

  /** The states as the enumeration declares them; position i holds the state whose underlying value is i. */
  const Declared: seq<AnimationState> :=
    [AnimationFinished, TruckArriving, TruckTurning, TruckTowardsRamp, RampRising,
     RampWait, RampLowering, TruckAwayFromRamp, TruckTurningBack, TruckLeaving]

  /** The underlying value of a state in the enumeration (AnimationFinished is 0, the default). */
  function Ordinal(s: AnimationState): (n: nat)
    ensures n < |Declared| && Declared[n] == s
  {
    match s
    case AnimationFinished => 0
    case TruckArriving => 1
    case TruckTurning => 2
    case TruckTowardsRamp => 3
    case RampRising => 4
    case RampWait => 5
    case RampLowering => 6
    case TruckAwayFromRamp => 7
    case TruckTurningBack => 8
    case TruckLeaving => 9
  }

  /** There are exactly ten states, all different, and every state is declared. */
  lemma TenDistinctStates()
    ensures |Declared| == 10
    ensures forall i, j :: 0 <= i < j < |Declared| ==> Declared[i] != Declared[j]
    ensures forall s: AnimationState :: s in Declared
  {
    forall s: AnimationState ensures s in Declared {
      assert Declared[Ordinal(s)] == s;
    }
  }

  /** The animation is running in every state but AnimationFinished. */
  predicate IsRunning(s: AnimationState) {
    s != AnimationFinished
  }

  /** The state that follows a running state: the next one in declaration order,
      wrapping from the last one, TruckLeaving, back to AnimationFinished.
      AnimationFinished itself has no successor. */
  function Next(s: AnimationState): (t: AnimationState)
    requires IsRunning(s)
    ensures Ordinal(t) == (Ordinal(s) + 1) % |Declared|
    ensures t != TruckArriving
  {
    match s
    case TruckArriving => TruckTurning
    case TruckTurning => TruckTowardsRamp
    case TruckTowardsRamp => RampRising
    case RampRising => RampWait
    case RampWait => RampLowering
    case RampLowering => TruckAwayFromRamp
    case TruckAwayFromRamp => TruckTurningBack
    case TruckTurningBack => TruckLeaving
    case TruckLeaving => AnimationFinished
  }

  /** Position of a state along one run: TruckArriving is 1, TruckLeaving 9,
      and AnimationFinished, reached last, 10. */
  function RunRank(s: AnimationState): (r: nat)
    ensures 1 <= r <= 10
    ensures r == 10 <==> s == AnimationFinished
    ensures IsRunning(s) ==> r == Ordinal(s)
  {
    if s == AnimationFinished then 10 else Ordinal(s)
  }

  /** Every transition moves exactly one place forward along the run. */
  lemma NextAdvancesRank(s: AnimationState)
    requires IsRunning(s)
    ensures RunRank(Next(s)) == RunRank(s) + 1
  {
  }
}
