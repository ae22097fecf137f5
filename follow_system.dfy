/**
 * `FollowSystem`: on every frame, steers the movement override towards the
 * follow target while it is farther than the follow distance and closer than
 * 100, and clears the desired position otherwise.
 */
module FollowSystem {
  import opened Wrappers
  import opened Geometry
  import opened Seqs
  import opened Movement

  /** The single-precision value of 0.1f, the slack added to the follow distance. */
  const Slack: real := 0.100000001490116119384765625

  /** Targets this far away or farther are not followed. */
  const MaxRange: real := 100.0

  /** The lookup `FirstOrDefault` makes: the first object with exactly the given name. */
  function FirstNamed(objects: seq<GameObject>, name: string): (r: Option<nat>)
    ensures r.Some? ==> r.value < |objects| && objects[r.value].name == name
    ensures r.Some? ==> forall j :: 0 <= j < r.value ==> objects[j].name != name
    ensures r.None? <==> forall k :: 0 <= k < |objects| ==> objects[k].name != name
  {
    FirstIndex(objects, (o: GameObject) => o.name == name)
  }

  /**
   * `GetGameObjectFromName`: the first object with the name, provided it is a
   * player from the given home world; None otherwise, and None without an
   * object table.
   */
  function GetGameObjectFromName(objects: Option<seq<GameObject>>, name: string, worldId: nat): (r: Option<GameObject>)
    ensures r.Some? ==> r.value.name == name && r.value.isPlayer && r.value.homeWorld == worldId
    ensures r.Some? ==> objects.Some? && FirstNamed(objects.value, name).Some?
    ensures r.Some? ==> r.value == objects.value[FirstNamed(objects.value, name).value]
    ensures objects.Some? && FirstNamed(objects.value, name).Some? ==>
      var o := objects.value[FirstNamed(objects.value, name).value];
      (r.Some? <==> o.isPlayer && o.homeWorld == worldId)
  {
    if objects.None? then None
    else match FirstNamed(objects.value, name)
      case None => None
      case Some(k) =>
        var o := objects.value[k];
        if !o.isPlayer then None
        else if o.homeWorld == worldId then Some(o)
        else None
  }

  /**
   * A matching player behind the first object of the same name is not found
   * when that first object is not a player of the world.
   */
  lemma ShadowedByEarlierName(objects: seq<GameObject>, name: string, worldId: nat, j: nat, k: nat)
    requires j < k < |objects|
    requires forall i :: 0 <= i < j ==> objects[i].name != name
    requires objects[j].name == name && (!objects[j].isPlayer || objects[j].homeWorld != worldId)
    requires objects[k].name == name && objects[k].isPlayer && objects[k].homeWorld == worldId
    ensures GetGameObjectFromName(Some(objects), name, worldId).None?
  {
    var first := FirstNamed(objects, name);
    assert first == Some(j);
  }

  class FollowSystemState {
    var follow: bool
    var following: bool
    var followDistance: int
    var followTarget: string
    var homeWorldId: nat
    var followTargetObject: Option<GameObject>
    const overrideMovement: OverrideMovement
    /** Whether `OnGameFrameworkUpdate` is subscribed to the framework's update event. */
    var subscribed: bool

    constructor (targetName: string, homeWorldId: nat, framework: bool)
      ensures followTarget == targetName && this.homeWorldId == homeWorldId
      ensures !follow && !following && followDistance == 2 && followTargetObject.None?
      ensures fresh(overrideMovement) && overrideMovement.desiredPosition.None?
      ensures overrideMovement.precision == DefaultPrecision && subscribed == framework
    {
      follow := false;
      following := false;
      followDistance := 2;
      followTarget := targetName;
      this.homeWorldId := homeWorldId;
      followTargetObject := None;
      overrideMovement := new OverrideMovement();
      subscribed := framework;
    }

    /** Clears the desired position of the movement override. */
    method Stop()
      modifies overrideMovement`desiredPosition
      ensures overrideMovement.desiredPosition.None?
    {
      if overrideMovement.desiredPosition.Some? {
        overrideMovement.desiredPosition := None;
      }
    }

    method MoveTo(position: Vec3, precision: real)
      modifies overrideMovement`desiredPosition, overrideMovement`precision
      ensures overrideMovement.desiredPosition == Some(position) && overrideMovement.precision == precision
    {
      if overrideMovement.precision != precision {
        overrideMovement.precision := precision;
      }
      overrideMovement.desiredPosition := Some(position);
    }

    /** Stops following: `Following` off and the desired position cleared, when it was following. */
    method StopFollowing()
      modifies this`following, overrideMovement`desiredPosition
      ensures !following
      ensures old(following) ==> overrideMovement.desiredPosition.None?
      ensures !old(following) ==> overrideMovement.desiredPosition == old(overrideMovement.desiredPosition)
    {
      if following {
        following := false;
        Stop();
      }
    }

    /**
     * `GetFollowTargetObject`: records the lookup result; when the target is
     * missing it also clears the desired position if following, but leaves
     * `Following` as it is.
     */
    method GetFollowTargetObject(objects: Option<seq<GameObject>>) returns (found: bool)
      modifies this`followTargetObject, overrideMovement`desiredPosition
      ensures followTargetObject == GetGameObjectFromName(objects, followTarget, homeWorldId)
      ensures found <==> followTargetObject.Some?
      ensures !found && following ==> overrideMovement.desiredPosition.None?
      ensures found || !following ==> overrideMovement.desiredPosition == old(overrideMovement.desiredPosition)
    {
      var target := GetGameObjectFromName(objects, followTarget, homeWorldId);
      if target.None? {
        followTargetObject := None;
        if following {
          Stop();
        }
        return false;
      }
      followTargetObject := target;
      return true;
    }

    /**
     * The per-frame handler. `localPlayer` is the player's position (None when
     * not logged in), `distance` the host's distance function, and `fault` an
     * exception thrown by the host while the target is looked up.
     */
    method OnGameFrameworkUpdate(localPlayer: Option<Vec3>, objects: Option<seq<GameObject>>,
                                 distance: (Vec3, Vec3) -> real, fault: bool)
      modifies this`following, this`followTargetObject, overrideMovement`desiredPosition, overrideMovement`precision
      ensures !follow ==> !following && followTargetObject == old(followTargetObject)
      ensures !follow || (localPlayer.Some? && (followTarget == [] || fault)) ==>
        !following && followTargetObject == old(followTargetObject) &&
        overrideMovement.precision == old(overrideMovement.precision) &&
        overrideMovement.desiredPosition == (if old(following) then None else old(overrideMovement.desiredPosition))
      ensures follow && localPlayer.None? ==>
        following == old(following) && followTargetObject == old(followTargetObject) &&
        overrideMovement.desiredPosition == old(overrideMovement.desiredPosition) &&
        overrideMovement.precision == old(overrideMovement.precision)
      ensures follow && localPlayer.Some? && followTarget != [] && !fault ==>
        followTargetObject == GetGameObjectFromName(objects, followTarget, homeWorldId)
      ensures follow && localPlayer.Some? && followTarget != [] && !fault && followTargetObject.None? ==>
        following == old(following) && overrideMovement.precision == old(overrideMovement.precision) &&
        overrideMovement.desiredPosition == (if old(following) then None else old(overrideMovement.desiredPosition))
      ensures follow && localPlayer.Some? && followTarget != [] && !fault && followTargetObject.Some? ==>
        var target := followTargetObject.value.position;
        var d := distance(localPlayer.value, target);
        if followDistance as real + Slack < d < MaxRange then
          following && overrideMovement.desiredPosition == Some(target) &&
          overrideMovement.precision == followDistance as real + Slack
        else
          !following && overrideMovement.precision == old(overrideMovement.precision) &&
          overrideMovement.desiredPosition == (if old(following) then None else old(overrideMovement.desiredPosition))
    {
      if !follow {
        StopFollowing();
        return;
      }
      if localPlayer.None? {
        return;
      }
      if followTarget != [] {
        if fault {
          StopFollowing();
          return;
        }
        var player := localPlayer.value;
        var found := GetFollowTargetObject(objects);
        if !found {
          return;
        }
        var target := followTargetObject.value.position;
        var d := distance(player, target);
        if followDistance as real + Slack < d && d < MaxRange {
          following := true;
          MoveTo(target, followDistance as real + Slack);
        } else if following {
          following := false;
          Stop();
        }
      } else {
        StopFollowing();
      }
    }

    method StopAllMovement()
      modifies this`follow, this`following, overrideMovement`desiredPosition
      ensures !follow && !following && overrideMovement.desiredPosition.None?
    {
      follow := false;
      following := false;
      Stop();
    }

    /** Stops everything and leaves the framework's update event. */
    method Dispose(framework: bool)
      modifies this`follow, this`following, this`subscribed, overrideMovement`desiredPosition
      ensures !follow && !following && overrideMovement.desiredPosition.None?
      ensures subscribed == (old(subscribed) && !framework)
    {
      StopAllMovement();
      if framework {
        subscribed := false;
      }
    }
  }
}
