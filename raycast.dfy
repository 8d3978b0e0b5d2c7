/** The surface raycast filter of the build controller: of the hits an AR raycast
    returns, only the first one on the bound plane is used, and the bound plane
    (`Model.Plane`) is dereferenced on every iteration of the search. */
module Raycast {
  import opened Engine

  /** The position of the first hit on trackable `id`, or `|hits|` when there is none. */
  function FirstIndexOf(hits: seq<ARRaycastHit>, id: TrackableId): (k: nat)
    ensures k <= |hits|
    ensures k < |hits| ==> hits[k].trackableId == id
    ensures forall j :: 0 <= j < k ==> hits[j].trackableId != id
  {
    if |hits| == 0 then 0
    else if hits[0].trackableId == id then 0
    else 1 + FirstIndexOf(hits[1..], id)
  }

  /** What a `foreach (hit in hitResults) if (hit.trackableId == _model.Plane.trackableId) … break`
      search yields: no hit on the bound plane, the pose of the first such hit, or the
      NullReferenceException raised when there are hits but no bound plane. */
  datatype SurfaceHit = NoSurfaceHit | SurfaceHit(pose: Pose) | PlaneMissing

  function BoundSurfaceHit(hits: seq<ARRaycastHit>, plane: Option<TrackableId>): (r: SurfaceHit)
    ensures r.PlaneMissing? <==> |hits| > 0 && plane.None?
    ensures r.SurfaceHit? <==> plane.Some? && exists i :: 0 <= i < |hits| && hits[i].trackableId == plane.value
    ensures r.SurfaceHit? ==>
              exists i :: 0 <= i < |hits| && hits[i].trackableId == plane.value && hits[i].pose == r.pose
                          && forall j :: 0 <= j < i ==> hits[j].trackableId != plane.value
  {
    if |hits| == 0 then NoSurfaceHit
    else if plane.None? then PlaneMissing
    else
      var k := FirstIndexOf(hits, plane.value);
      if k < |hits| then SurfaceHit(hits[k].pose) else NoSurfaceHit
  }

  /** The search loop itself, as the controller runs it: `Raycast` reports a hit only
      when the result list is non-empty, and the loop stops at the first matching hit. */
  method FindBoundHit(hits: seq<ARRaycastHit>, plane: Option<TrackableId>) returns (r: SurfaceHit)
    ensures r == BoundSurfaceHit(hits, plane)
  {
    r := NoSurfaceHit;
    if |hits| == 0 {
      return;
    }
    var i := 0;
    while i < |hits|
      invariant 0 <= i <= |hits|
      invariant i > 0 ==> plane.Some?
      invariant forall j :: 0 <= j < i ==> plane.Some? && hits[j].trackableId != plane.value
    {
      if plane.None? {
        return PlaneMissing;
      }
      if hits[i].trackableId == plane.value {
        return SurfaceHit(hits[i].pose);
      }
      i := i + 1;
    }
  }
}
