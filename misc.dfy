/**
 * `Misc.GetNearestEntrance`: the scan of the object table for a house entrance.
 * The entrance name patterns are the predicate `isEntrance`, and the distance
 * between two positions is the host function `distance`.
 */
module Misc {
  import opened Wrappers
  import opened Geometry
  import opened Seqs

  /** `float.MaxValue`. */
  const FloatMax: real := 340282346638528859811704183484516925440.0

  /** A targetable object whose name matches an entrance pattern. */
  predicate IsEntrance(x: GameObject, isEntrance: string -> bool) {
    x.isTargetable && isEntrance(x.name)
  }

  /** An entrance that the scan accepts: its distance beats the initial `float.MaxValue`. */
  predicate Accepted(x: GameObject, player: Vec3, isEntrance: string -> bool, distance: (Vec3, Vec3) -> real) {
    IsEntrance(x, isEntrance) && distance(player, x.position) < FloatMax
  }

  /**
   * The index of the entrance the scan returns: the first accepted object of the
   * table, or None when the table or the local player is absent or no object is
   * accepted.
   */
  function FirstEntrance(objects: Option<seq<GameObject>>, localPlayer: Option<Vec3>,
                         isEntrance: string -> bool, distance: (Vec3, Vec3) -> real): (r: Option<nat>)
    ensures r.Some? ==> objects.Some? && localPlayer.Some? && r.value < |objects.value|
    ensures r.Some? ==> IsEntrance(objects.value[r.value], isEntrance)
    ensures r.Some? ==> distance(localPlayer.value, objects.value[r.value].position) < FloatMax
    ensures r.Some? ==> forall j :: 0 <= j < r.value ==> !Accepted(objects.value[j], localPlayer.value, isEntrance, distance)
    ensures r.None? <==> (objects.None? || localPlayer.None? ||
      forall k :: 0 <= k < |objects.value| ==> !Accepted(objects.value[k], localPlayer.value, isEntrance, distance))
  {
    if objects.None? || localPlayer.None? then None
    else FirstIndex(objects.value, x => Accepted(x, localPlayer.value, isEntrance, distance))
  }

  /**
   * The scan over `Api.Objects` (None when the table is absent) relative to the
   * local player (None when the client state or the player is absent). The
   * first accepted object returns at once with its distance, so the result is
   * the first entrance in table order rather than the nearest one.
   */
  method GetNearestEntrance(objects: Option<seq<GameObject>>, localPlayer: Option<Vec3>,
                            isEntrance: string -> bool, distance: (Vec3, Vec3) -> real)
    returns (entrance: Option<GameObject>, dist: real)
    ensures var first := FirstEntrance(objects, localPlayer, isEntrance, distance);
      entrance == (if first.Some? then Some(objects.value[first.value]) else None)
    ensures entrance.None? ==> dist == FloatMax
    ensures entrance.Some? ==> dist == distance(localPlayer.value, entrance.value.position) && dist < FloatMax
  {
    var currentDistance := FloatMax;
    var currentObject: Option<GameObject> := None;
    if objects.Some? {
      var i := 0;
      while i < |objects.value|
        invariant 0 <= i <= |objects.value|
        invariant localPlayer.Some? ==>
          forall j :: 0 <= j < i ==> !Accepted(objects.value[j], localPlayer.value, isEntrance, distance)
      {
        var x := objects.value[i];
        if x.isTargetable && isEntrance(x.name) {
          if localPlayer.Some? {
            var position := distance(localPlayer.value, x.position);
            if position < currentDistance {
              currentDistance := position;
              currentObject := Some(x);
              return currentObject, currentDistance;
            }
          }
        }
        i := i + 1;
      }
    }
    return currentObject, currentDistance;
  }
}
