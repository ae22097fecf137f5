/**
 * `OverrideMovement`: the walk and fly input hooks that replace the player's
 * movement input with a step towards `DesiredPosition`. The direction the step
 * takes (`GetMoveDir`, which reads the camera) and the climb angle written to
 * `Up` are host functions; the original input functions are taken to have run
 * already, so a detour starts from the input they produced.
 */
module Movement {
  import opened Wrappers
  import opened Geometry

  /** The condition flags the plugin reads; every other flag is `OtherFlag`. */
  datatype ConditionFlag =
    | BetweenAreas | BetweenAreas51
    | WatchingCutscene | WatchingCutscene78 | OccupiedInCutSceneEvent
    | OccupiedInQuestEvent | OccupiedInEvent | OccupiedSummoningBell
    | Unknown57
    | OtherFlag(id: nat)

  /** The flags under which the input is never overridden. */
  predicate Blocking(f: ConditionFlag) {
    !f.OtherFlag?
  }

  /** The single-precision value of 0.01f. */
  const Margin: real := 0.00999999977648258209228515625

  /** The default `Precision`, 0.5f. */
  const DefaultPrecision: real := 0.5

  /**
   * `CanOverride`: the direction to the desired position when the input may be
   * replaced. `conditions` is the set of raised flags (None without the
   * condition service); `localPlayer` is the player's position.
   */
  function CanOverride(conditions: Option<set<ConditionFlag>>, localPlayer: Option<Vec3>,
                       desired: Option<Vec3>, precision: real): (dir: Option<Vec3>)
    ensures conditions.Some? && (exists f :: f in conditions.value && Blocking(f)) ==> dir.None?
    ensures localPlayer.None? || desired.None? ==> dir.None?
    ensures dir.Some? ==> desired.Some? && localPlayer.Some? && dir.value == Sub(desired.value, localPlayer.value)
    ensures conditions.None? || (forall f :: f in conditions.value ==> !Blocking(f)) ==>
      localPlayer.Some? && desired.Some? ==>
        (dir.Some? <==> LengthGreater(Sub(desired.value, localPlayer.value), precision - Margin))
  {
    if conditions.Some? && (BetweenAreas in conditions.value || BetweenAreas51 in conditions.value) then None
    else if conditions.Some? && (WatchingCutscene in conditions.value || WatchingCutscene78 in conditions.value
                                 || OccupiedInCutSceneEvent in conditions.value) then None
    else if conditions.Some? && (OccupiedInQuestEvent in conditions.value || OccupiedInEvent in conditions.value
                                 || OccupiedSummoningBell in conditions.value) then None
    else if conditions.Some? && Unknown57 in conditions.value then None
    else if localPlayer.None? then None
    else if desired.None? then None
    else
      var dir := Sub(desired.value, localPlayer.value);
      if LengthGreater(dir, precision - Margin) then Some(dir) else None
  }

  /** The walk input the hook receives: `*sumLeft` and `*sumForward`. */
  class WalkInput {
    var sumLeft: real
    var sumForward: real

    constructor (sumLeft: real, sumForward: real)
      ensures this.sumLeft == sumLeft && this.sumForward == sumForward
    {
      this.sumLeft := sumLeft;
      this.sumForward := sumForward;
    }
  }

  /** `PlayerMoveControllerFlyInput`. */
  class FlyInput {
    var forward: real
    var left: real
    var up: real
    var turn: real
    var u10: real
    var dirMode: nat
    var haveBackwardOrStrafe: nat

    constructor (forward: real, left: real, up: real, turn: real)
      ensures this.forward == forward && this.left == left && this.up == up && this.turn == turn
      ensures u10 == 0.0 && dirMode == 0 && haveBackwardOrStrafe == 0
    {
      this.forward := forward;
      this.left := left;
      this.up := up;
      this.turn := turn;
      u10 := 0.0;
      dirMode := 0;
      haveBackwardOrStrafe := 0;
    }
  }

  /** What to do with the input once the original has produced it. */
  datatype Arbitration = KeepInput | UserInput | Override(dir: Vec3)

  /**
   * The decision both detours share: no override unless `CanOverride`; real
   * user input is reported (and kept) unless it is to be ignored; otherwise the
   * input is replaced.
   */
  function Arbitrate(dir: Option<Vec3>, ignoreUserInput: bool, noInput: bool): (a: Arbitration)
    ensures dir.None? ==> a == KeepInput
    ensures a.Override? ==> dir == Some(a.dir) && (ignoreUserInput || noInput)
    ensures a == UserInput <==> dir.Some? && !ignoreUserInput && !noInput
  {
    if dir.None? then KeepInput
    else if !ignoreUserInput && !noInput then UserInput
    else Override(dir.value)
  }

  class OverrideMovement {
    var ignoreUserInput: bool
    /** `ActionIfUserInput != null`. */
    var hasUserInputAction: bool
    /** How many times `ActionIfUserInput` has been invoked. */
    var userInputReports: nat
    var desiredPosition: Option<Vec3>
    var precision: real
    /** Whether the hooks are switched on (used by `MovementFactory`). */
    var enabled: bool

    constructor ()
      ensures !ignoreUserInput && !hasUserInputAction && userInputReports == 0
      ensures desiredPosition.None? && precision == DefaultPrecision && !enabled
    {
      ignoreUserInput := false;
      hasUserInputAction := false;
      userInputReports := 0;
      desiredPosition := None;
      precision := DefaultPrecision;
      enabled := false;
    }

    /** `ActionIfUserInput?.Invoke()`. */
    method ReportUserInput()
      modifies this`userInputReports
      ensures userInputReports == old(userInputReports) + (if hasUserInputAction then 1 else 0)
    {
      if hasUserInputAction {
        userInputReports := userInputReports + 1;
      }
    }

    /**
     * `RmiWalkDetour`: replaces `sumLeft`/`sumForward` with the move direction
     * only when overriding is allowed and `bAdditiveUnk == 0`.
     */
    method RmiWalkDetour(input: WalkInput, bAdditiveUnk: nat, conditions: Option<set<ConditionFlag>>,
                         localPlayer: Option<Vec3>, moveDir: Vec3 -> (real, real))
      modifies input, this`userInputReports
      ensures var a := Arbitrate(CanOverride(conditions, localPlayer, desiredPosition, precision), ignoreUserInput,
          old(input.sumLeft) == 0.0 && old(input.sumForward) == 0.0);
        userInputReports == old(userInputReports) + (if a == UserInput && hasUserInputAction then 1 else 0) &&
        if a.Override? && bAdditiveUnk == 0 then
          input.sumLeft == moveDir(a.dir).0 && input.sumForward == moveDir(a.dir).1
        else
          input.sumLeft == old(input.sumLeft) && input.sumForward == old(input.sumForward)
    {
      var dir := CanOverride(conditions, localPlayer, desiredPosition, precision);
      if dir.None? {
        return;
      }
      var noInput := input.sumLeft == 0.0 && input.sumForward == 0.0;
      if !ignoreUserInput && !noInput {
        ReportUserInput();
      } else if bAdditiveUnk == 0 {
        var d := moveDir(dir.value);
        input.sumLeft := d.0;
        input.sumForward := d.1;
      }
    }

    /**
     * `RmiFlyDetour`: replaces `Left`, `Forward` and `Up` when overriding is
     * allowed; `Turn` and the remaining fields always keep what the original wrote.
     */
    method RmiFlyDetour(input: FlyInput, conditions: Option<set<ConditionFlag>>, localPlayer: Option<Vec3>,
                        moveDir: Vec3 -> (real, real), upAngle: Vec3 -> real)
      modifies input, this`userInputReports
      ensures input.turn == old(input.turn) && input.u10 == old(input.u10)
      ensures input.dirMode == old(input.dirMode) && input.haveBackwardOrStrafe == old(input.haveBackwardOrStrafe)
      ensures var a := Arbitrate(CanOverride(conditions, localPlayer, desiredPosition, precision), ignoreUserInput,
          old(input.forward) == 0.0 && old(input.left) == 0.0 && old(input.up) == 0.0);
        userInputReports == old(userInputReports) + (if a == UserInput && hasUserInputAction then 1 else 0) &&
        if a.Override? then
          input.left == moveDir(a.dir).0 && input.forward == moveDir(a.dir).1 && input.up == upAngle(a.dir)
        else
          input.left == old(input.left) && input.forward == old(input.forward) && input.up == old(input.up)
    {
      var dir := CanOverride(conditions, localPlayer, desiredPosition, precision);
      if dir.None? {
        return;
      }
      var noInput := input.forward == 0.0 && input.left == 0.0 && input.up == 0.0;
      if !ignoreUserInput && !noInput {
        ReportUserInput();
      } else {
        var d := moveDir(dir.value);
        input.left := d.0;
        input.forward := d.1;
        input.up := upAngle(dir.value);
      }
    }
  }
}
