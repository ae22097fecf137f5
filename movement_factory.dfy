/**
 * `MovementFactory`: walks the player to a desired position with the movement
 * override and turns the camera when done. The background move task is a
 * polling loop over a sequence of ticks; the 50 ms, 300 ms and 800 ms delays
 * between them are not modelled.
 */
module MovementFactory {
  import opened Wrappers
  import opened Geometry
  import opened Movement

  /** `CameraUtil`, as far as the factory uses it. */
  class Camera {
    var enabled: bool
    /** `DesiredAzimuth`, in radians. */
    var desiredAzimuth: real

    constructor ()
      ensures !enabled && desiredAzimuth == 0.0
    {
      enabled := false;
      desiredAzimuth := 0.0;
    }
  }

  /** The single-precision value of 0.05f, the precision of a factory move. */
  const MovePrecision: real := 0.0500000007450580596923828125

  /** The single-precision value of 0.2f: moving no farther than this in a tick counts as stuck. */
  const StuckStep: real := 0.20000000298023223876953125

  /** The stuck ticks tolerated before giving up. */
  const Rounds: nat := 4

  /** What one tick of the task observes: a cancellation request, and the player's position (None once the player is gone). */
  datatype Tick = Tick(cancelled: bool, position: Option<Vec3>)

  /**
   * How the task ended. `Faulted` is a null local player inside the loop (an
   * exception that skips `Cleanup`); `StillRunning` means the ticks ran out.
   */
  datatype MoveOutcome = NoPlayer | Cancelled | GaveUp | Arrived | Faulted | StillRunning

  /** The player moved no more than `StuckStep` horizontally since the last tick. */
  predicate Stuck(last: Vec3, position: Vec3) {
    HorizontalLengthSquared(Sub(last, position)) <= StuckStep * StuckStep
  }

  /** The player is horizontally within `precision` of the desired position. */
  predicate Reached(desired: Option<Vec3>, position: Vec3, precision: real) {
    desired.Some? && HorizontalLengthSquared(Sub(desired.value, position)) <= precision * precision
  }

  /** A loop outcome seen from `k` ticks earlier. */
  function Shift(r: (MoveOutcome, nat), k: nat): (MoveOutcome, nat) {
    (r.0, r.1 + k)
  }

  /** What one tick decides once the player's position is known. */
  datatype StepResult = StepGaveUp | StepArrived | Continue(round: nat)

  /**
   * One tick with the movement override present: stuck with no rounds left
   * gives up; otherwise the round count is lowered on a stuck tick or reset on
   * a moving one, and then arrival is tested.
   */
  function Step(last: Vec3, round: nat, position: Vec3, desired: Option<Vec3>, precision: real): (r: StepResult)
    ensures r == StepGaveUp <==> Stuck(last, position) && round == 0
    ensures r == StepArrived <==> !(Stuck(last, position) && round == 0) && Reached(desired, position, precision)
    ensures r.Continue? ==> !Reached(desired, position, precision)
    ensures r.Continue? ==> r.round == if Stuck(last, position) then round - 1 else Rounds
  {
    if Stuck(last, position) && round == 0 then StepGaveUp
    else
      var next := if Stuck(last, position) then round - 1 else Rounds;
      if Reached(desired, position, precision) then StepArrived else Continue(next)
  }

  /**
   * The polling loop from a given tick on: its outcome and the index of the
   * tick where it ended. `round` counts the stuck ticks still tolerated;
   * without the movement override the loop only waits.
   */
  function Poll(ticks: seq<Tick>, last: Vec3, round: nat, desired: Option<Vec3>, precision: real,
                hasMovement: bool): (r: (MoveOutcome, nat))
    ensures r.1 <= |ticks|
    ensures r.0 == GaveUp || r.0 == Arrived ==> hasMovement
    decreases |ticks|
  {
    if ticks == [] then (StillRunning, 0)
    else if ticks[0].cancelled then (Cancelled, 0)
    else if ticks[0].position.None? then (Faulted, 0)
    else
      var position := ticks[0].position.value;
      if !hasMovement then Shift(Poll(ticks[1..], position, round, desired, precision, hasMovement), 1)
      else match Step(last, round, position, desired, precision)
        case StepGaveUp => (GaveUp, 0)
        case StepArrived => (Arrived, 0)
        case Continue(next) => Shift(Poll(ticks[1..], position, next, desired, precision, hasMovement), 1)
  }

  /**
   * Where the loop stops: it runs out of ticks exactly when it is still running,
   * a cancelled or playerless tick ends it there, and every earlier tick was
   * neither.
   */
  lemma {:induction false} PollEnds(ticks: seq<Tick>, last: Vec3, round: nat, desired: Option<Vec3>, precision: real,
                                    hasMovement: bool)
    ensures var r := Poll(ticks, last, round, desired, precision, hasMovement);
      (r.0 == StillRunning <==> r.1 == |ticks|) &&
      (r.0 == Cancelled ==> ticks[r.1].cancelled) &&
      (r.0 == Faulted ==> ticks[r.1].position.None?) &&
      r.0 != NoPlayer &&
      forall j :: 0 <= j < r.1 ==> !ticks[j].cancelled && ticks[j].position.Some?
    decreases |ticks|
  {
    if ticks != [] && !ticks[0].cancelled && ticks[0].position.Some? {
      var position := ticks[0].position.value;
      var next := if !hasMovement then round
        else match Step(last, round, position, desired, precision)
          case Continue(n) => n
          case _ => round;
      PollEnds(ticks[1..], position, next, desired, precision, hasMovement);
    }
  }

  /** `Poll` from tick `i` on, one tick unfolded. */
  lemma PollAt(ticks: seq<Tick>, i: nat, last: Vec3, round: nat, desired: Option<Vec3>, precision: real, hasMovement: bool)
    requires i < |ticks| && !ticks[i].cancelled && ticks[i].position.Some?
    ensures var position := ticks[i].position.value;
      var rest := Poll(ticks[i + 1..], position, round, desired, precision, hasMovement);
      !hasMovement ==> Poll(ticks[i..], last, round, desired, precision, hasMovement) == Shift(rest, 1)
    ensures var position := ticks[i].position.value;
      hasMovement ==>
        Poll(ticks[i..], last, round, desired, precision, hasMovement) == match Step(last, round, position, desired, precision)
        case StepGaveUp => (GaveUp, 0)
        case StepArrived => (Arrived, 0)
        case Continue(next) => Shift(Poll(ticks[i + 1..], position, next, desired, precision, hasMovement), 1)
  {
    assert ticks[i..][0] == ticks[i] && ticks[i..][1..] == ticks[i + 1..];
  }

  /** A player standing still away from the target is given up on at the fifth tick. */
  lemma {:induction false} GiveUpOnFifthStuckTick(ticks: seq<Tick>, position: Vec3, desired: Option<Vec3>, precision: real)
    requires |ticks| >= 5
    requires forall k :: 0 <= k < 5 ==> ticks[k] == Tick(false, Some(position))
    requires !Reached(desired, position, precision)
    ensures Poll(ticks, position, Rounds, desired, precision, true) == (GaveUp, 4)
  {
    assert Stuck(position, position) by {
      assert Sub(position, position) == Vec3(0.0, 0.0, 0.0);
    }
    StuckRun(ticks, position, Rounds, desired, precision);
  }

  /** With `round` stuck ticks left, `round + 1` standing-still ticks end in giving up at index `round`. */
  lemma {:induction false} StuckRun(ticks: seq<Tick>, position: Vec3, round: nat, desired: Option<Vec3>, precision: real)
    requires Stuck(position, position)
    requires |ticks| > round
    requires forall k :: 0 <= k <= round ==> ticks[k] == Tick(false, Some(position))
    requires !Reached(desired, position, precision)
    ensures Poll(ticks, position, round, desired, precision, true) == (GaveUp, round)
    decreases round
  {
    if round > 0 {
      assert ticks[0] == Tick(false, Some(position));
      StuckRun(ticks[1..], position, round - 1, desired, precision);
    }
  }

  /** Every tick up to the first without a player moves the player more than `StuckStep`. */
  predicate AlwaysMoving(last: Vec3, ticks: seq<Tick>)
    decreases |ticks|
  {
    ticks == [] || ticks[0].position.None? ||
    (!Stuck(last, ticks[0].position.value) && AlwaysMoving(ticks[0].position.value, ticks[1..]))
  }

  /** A player that keeps moving is never given up on, whatever the round count. */
  lemma {:induction false} MovingNeverGivesUp(ticks: seq<Tick>, last: Vec3, round: nat, desired: Option<Vec3>,
                                              precision: real, hasMovement: bool)
    requires AlwaysMoving(last, ticks)
    ensures Poll(ticks, last, round, desired, precision, hasMovement).0 != GaveUp
    decreases |ticks|
  {
    if ticks != [] && !ticks[0].cancelled && ticks[0].position.Some? {
      var position := ticks[0].position.value;
      MovingNeverGivesUp(ticks[1..], position, if hasMovement then Rounds else round, desired, precision, hasMovement);
    }
  }

  class MovementFactoryState {
    var cam: Camera?
    var movement: OverrideMovement?
    var desiredPosition: Vec3
    /** `_desiredRotation`, in radians. */
    var desiredRotation: real
    /** Whether `_cancelMovementToken` has been cancelled. */
    var cancelRequested: bool
    /** Calls of `FollowSystem.StopFollow`, which is not part of this model. */
    var followStops: nat
    /** Move tasks scheduled on the framework thread and not yet started. */
    var scheduledMoves: nat

    constructor ()
      ensures fresh(cam) && fresh(movement) && cam != null && movement != null
      ensures !cam.enabled && !movement.enabled && movement.desiredPosition.None?
      ensures desiredPosition == Vec3(0.0, 0.0, 0.0) && !cancelRequested && followStops == 0 && scheduledMoves == 0
    {
      movement := new OverrideMovement();
      cam := new Camera();
      desiredPosition := Vec3(0.0, 0.0, 0.0);
      desiredRotation := 0.0;
      cancelRequested := false;
      followStops := 0;
      scheduledMoves := 0;
    }

    method Initialize(position: Vec3, rotation: real)
      modifies this
      ensures desiredPosition == position && desiredRotation == rotation
      ensures cam == old(cam) && movement == old(movement) && cancelRequested == old(cancelRequested)
      ensures followStops == old(followStops) && scheduledMoves == old(scheduledMoves)
    {
      desiredPosition := position;
      desiredRotation := rotation;
    }

    /**
     * Stops following, points the movement override at the desired position with
     * precision 0.05f and schedules the move task (when the framework exists).
     */
    method Move(framework: bool)
      modifies this, movement
      ensures cam == old(cam) && movement == old(movement) && desiredPosition == old(desiredPosition)
      ensures followStops == old(followStops) + 1
      ensures scheduledMoves == old(scheduledMoves) + (if framework then 1 else 0)
      ensures movement != null ==> movement.precision == MovePrecision && movement.desiredPosition == Some(desiredPosition)
      ensures old(movement) != null ==> movement.enabled == old(movement.enabled)
      ensures desiredRotation == old(desiredRotation) && cancelRequested == old(cancelRequested)
    {
      followStops := followStops + 1;
      if movement != null {
        movement.precision := MovePrecision;
        movement.desiredPosition := Some(desiredPosition);
      }
      if framework {
        scheduledMoves := scheduledMoves + 1;
      }
    }

    /** Does nothing when the target is where the player already stands; otherwise moves there. */
    method MoveTo(x: real, y: real, z: real, rotation: real, localPlayer: Option<Vec3>, framework: bool)
      modifies this, movement
      ensures cam == old(cam) && movement == old(movement) && cancelRequested == old(cancelRequested)
      ensures localPlayer == Some(Vec3(x, y, z)) ==>
        followStops == old(followStops) && scheduledMoves == old(scheduledMoves) &&
        desiredPosition == old(desiredPosition) && desiredRotation == old(desiredRotation) &&
        (old(movement) != null ==> movement.desiredPosition == old(movement.desiredPosition))
      ensures localPlayer != Some(Vec3(x, y, z)) ==>
        desiredPosition == Vec3(x, y, z) && desiredRotation == rotation && followStops == old(followStops) + 1 &&
        scheduledMoves == old(scheduledMoves) + (if framework then 1 else 0) &&
        (movement != null ==> movement.desiredPosition == Some(Vec3(x, y, z)) && movement.precision == MovePrecision)
    {
      var newPos := Vec3(x, y, z);
      if localPlayer.Some? && newPos == localPlayer.value {
        return;
      }
      desiredPosition := newPos;
      desiredRotation := rotation;
      Move(framework);
    }

    /** Switches the camera and the movement override off. */
    method Cleanup()
      modifies cam, movement
      ensures cam != null ==> !cam.enabled && cam.desiredAzimuth == old(cam.desiredAzimuth)
      ensures movement != null ==> !movement.enabled && movement.desiredPosition == old(movement.desiredPosition)
      ensures movement != null ==> movement.precision == old(movement.precision)
    {
      if cam != null {
        cam.enabled := false;
      }
      if movement != null {
        movement.enabled := false;
      }
    }

    method StopMovement()
      modifies this`cancelRequested, cam, movement
      ensures cancelRequested
      ensures cam != null ==> !cam.enabled
      ensures movement != null ==> !movement.enabled
    {
      cancelRequested := true;
      Cleanup();
    }

    /** The end of a successful or abandoned move: turn the camera, stop moving, and after the pause switch the camera off. */
    method FaceAndStop()
      requires movement != null
      modifies cam, movement
      ensures cam != null ==> !cam.enabled && cam.desiredAzimuth == desiredRotation && !movement.enabled
      ensures cam == null ==> movement.enabled == old(movement.enabled)
      ensures movement.desiredPosition == old(movement.desiredPosition) && movement.precision == old(movement.precision)
    {
      if cam != null {
        cam.desiredAzimuth := desiredRotation;
        cam.enabled := true;
        movement.enabled := false;
        cam.enabled := false;
      }
    }

    /**
     * The polling loop of the move task, from the player's position when it
     * starts: each tick either ends the loop (cancellation, a vanished player,
     * giving up, arrival) or remembers the position for the next stuck test.
     * The fields `_lastPos` and `_round` are used only by this loop, so they
     * are its locals `lastPos` and `round` here.
     */
    method PollTicks(start: Vec3, ticks: seq<Tick>, desired: Option<Vec3>, precision: real, hasMovement: bool)
      returns (outcome: MoveOutcome, at: nat)
      ensures (outcome, at) == Poll(ticks, start, Rounds, desired, precision, hasMovement)
    {
      var lastPos := start;
      var round: nat := Rounds;
      var i := 0;
      while i < |ticks|
        invariant 0 <= i <= |ticks|
        invariant Poll(ticks, start, Rounds, desired, precision, hasMovement) ==
          Shift(Poll(ticks[i..], lastPos, round, desired, precision, hasMovement), i)
        decreases |ticks| - i
      {
        var tick := ticks[i];
        assert ticks[i..][0] == tick;
        if tick.cancelled {
          return Cancelled, i;
        }
        if tick.position.None? {
          return Faulted, i;
        }
        var position := tick.position.value;
        PollAt(ticks, i, lastPos, round, desired, precision, hasMovement);
        if hasMovement {
          var stuck := Stuck(lastPos, position);
          if stuck && round == 0 {
            return GaveUp, i;
          }
          round := if stuck then round - 1 else Rounds;
          if Reached(desired, position, precision) {
            return Arrived, i;
          }
        }
        lastPos := position;
        i := i + 1;
      }
      assert ticks[i..] == [];
      return StillRunning, |ticks|;
    }

    /**
     * A move task started by a scheduled tick with a fresh cancellation token.
     * `start` is the local player's position when the task starts (None without
     * one). The loop ends as `Poll` describes; giving up and arrival turn the
     * camera to the desired rotation, and every normal end switches the camera
     * and the movement override off.
     */
    method RunMoveTask(start: Option<Vec3>, ticks: seq<Tick>) returns (outcome: MoveOutcome, at: nat)
      requires scheduledMoves > 0
      modifies this, cam, movement
      ensures scheduledMoves == old(scheduledMoves) - 1 && !cancelRequested
      ensures cam == old(cam) && movement == old(movement)
      ensures start.None? ==> outcome == NoPlayer && at == 0
      ensures start.Some? && old(movement) != null ==>
        (outcome, at) == Poll(ticks, start.value, Rounds, old(movement.desiredPosition), old(movement.precision), true)
      ensures start.Some? && old(movement) == null ==>
        (outcome, at) == Poll(ticks, start.value, Rounds, None, 0.0, false)
      ensures outcome != Faulted && outcome != StillRunning ==>
        (cam != null ==> !cam.enabled) && (movement != null ==> !movement.enabled)
      ensures (outcome == GaveUp || outcome == Arrived) && cam != null ==> cam.desiredAzimuth == desiredRotation
      ensures movement != null ==> movement.desiredPosition == old(movement.desiredPosition)
      ensures movement != null ==> movement.precision == old(movement.precision)
    {
      scheduledMoves := scheduledMoves - 1;
      cancelRequested := false;
      if start.None? {
        Cleanup();
        return NoPlayer, 0;
      }
      if movement != null && !movement.enabled {
        movement.enabled := true;
      }
      if movement != null {
        outcome, at := PollTicks(start.value, ticks, movement.desiredPosition, movement.precision, true);
      } else {
        outcome, at := PollTicks(start.value, ticks, None, 0.0, false);
      }
      if outcome == GaveUp || outcome == Arrived {
        FaceAndStop();
      }
      if outcome != Faulted && outcome != StillRunning {
        Cleanup();
      }
    }

    method Dispose()
      modifies this, cam, movement
      ensures cam == null && movement == null
      ensures old(cam) != null ==> !old(cam).enabled
      ensures old(movement) != null ==> !old(movement).enabled
    {
      if cam != null {
        cam.enabled := false;
        cam := null;
      }
      if movement != null {
        movement.enabled := false;
        movement := null;
      }
    }
  }
}
