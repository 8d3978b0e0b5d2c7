/** PlaneSelectionController: one selected-plane slot. Each tap first deselects the
    selected plane (default material back on, slot cleared), then selects the plane of
    the first AR raycast hit (selected material on). Every assignment to the slot
    notifies `PlaneSelected` with the new value. */
module Planes {
  import opened Engine

  /** An ARPlane: its trackable identity, the material of its MeshRenderer, and whether
      its game object is active. */
  class ARPlane {
    const trackableId: TrackableId
    var material: MaterialId
    var active: bool

    constructor (trackableId: TrackableId, material: MaterialId)
      ensures this.trackableId == trackableId && this.material == material && active
    {
      this.trackableId := trackableId;
      this.material := material;
      active := true;
    }
  }

  /** ARPlaneManager: the tracked planes by identity, and the prefab it instantiates for
      newly detected planes (None is null). */
  class ARPlaneManager {
    var trackables: map<TrackableId, ARPlane>
    var planePrefab: Option<PrefabId>

    ghost predicate Valid()
      reads this
    {
      forall id :: id in trackables ==> trackables[id].trackableId == id
    }

    constructor (planePrefab: Option<PrefabId>)
      ensures Valid() && trackables == map[] && this.planePrefab == planePrefab
    {
      trackables := map[];
      this.planePrefab := planePrefab;
    }

    /** GetPlane: the tracked plane with identity `id`, or null. */
    function GetPlane(id: TrackableId): (p: ARPlane?)
      reads this
      requires Valid()
      ensures p != null <==> id in trackables
      ensures p != null ==> p == trackables[id] && p.trackableId == id
    {
      if id in trackables then trackables[id] else null
    }
  }

  class PlaneSelectionController {
    const planeManager: ARPlaneManager
    const defaultPlaneMaterial: MaterialId
    const selectedPlaneMaterial: MaterialId
    /** `_plane`: the selected plane, or null. */
    var plane: ARPlane?
    /** Every value `PlaneSelected` has been invoked with, oldest first. */
    var planeSelected: seq<ARPlane?>

    ghost predicate Valid()
      reads this, planeManager
    {
      planeManager.Valid()
    }

    constructor (planeManager: ARPlaneManager, defaultPlaneMaterial: MaterialId, selectedPlaneMaterial: MaterialId)
      requires planeManager.Valid()
      ensures Valid() && plane == null && planeSelected == []
      ensures this.planeManager == planeManager
      ensures this.defaultPlaneMaterial == defaultPlaneMaterial && this.selectedPlaneMaterial == selectedPlaneMaterial
    {
      this.planeManager := planeManager;
      this.defaultPlaneMaterial := defaultPlaneMaterial;
      this.selectedPlaneMaterial := selectedPlaneMaterial;
      plane := null;
      planeSelected := [];
    }

    /** The `Plane` setter: store the value, then notify with it. */
    method SetPlane(value: ARPlane?)
      modifies this
      ensures plane == value
      ensures planeSelected == old(planeSelected) + [value]
    {
      plane := value;
      planeSelected := planeSelected + [value];
    }

    /** DeselectPlane: no-op without a selected plane; otherwise the default material goes
        back on and the slot is cleared. */
    method DeselectPlane()
      modifies this, plane
      ensures plane == null
      ensures old(plane) == null ==> planeSelected == old(planeSelected)
      ensures old(plane) != null ==> old(plane).material == defaultPlaneMaterial
                                     && old(plane).active == old(plane.active)
                                     && planeSelected == old(planeSelected) + [null]
    {
      if plane != null {
        plane.material := defaultPlaneMaterial;
        SetPlane(null);
      }
    }

    /** HandleSelectPlane, with the AR raycast result list `hits` as input. `thrown` is the
        NullReferenceException raised when the first hit's plane is not tracked. */
    method HandleSelectPlane(hits: seq<ARRaycastHit>) returns (thrown: bool)
      requires Valid()
      modifies this, plane, planeManager.trackables.Values
      ensures Valid()
      ensures thrown <==> |hits| > 0 && hits[0].trackableId !in planeManager.trackables
      // the previous plane is always deselected first
      ensures old(plane) != null && old(plane) != plane ==> old(plane).material == defaultPlaneMaterial
      // a miss (or the exception) leaves no plane selected
      ensures (|hits| == 0 || thrown) ==> plane == null
      ensures (|hits| == 0 || thrown) ==> planeSelected == old(planeSelected) + (if old(plane) != null then [null] else [])
      // a hit selects the plane of the first hit and gives it the selected material
      ensures |hits| > 0 && !thrown ==>
                plane == planeManager.trackables[hits[0].trackableId]
                && plane.material == selectedPlaneMaterial
                && planeSelected == old(planeSelected) + (if old(plane) != null then [null] else []) + [plane]
      // no other plane changes
      ensures forall q :: q in planeManager.trackables.Values && q != old(plane) && q != plane ==> q.material == old(q.material)
      ensures forall q :: q in planeManager.trackables.Values ==> q.active == old(q.active)
    {
      DeselectPlane();
      thrown := false;
      if |hits| > 0 {
        var hit := hits[0];
        var planeId := hit.trackableId;
        var p := planeManager.GetPlane(planeId);
        if p == null {
          thrown := true;
          return;
        }
        p.material := selectedPlaneMaterial;
        SetPlane(p);
      }
    }

    /** OnDisable: stops visualising newly detected planes and deactivates every tracked
        plane other than the selected one. Without a selected plane the first iteration
        raises a NullReferenceException (`thrown`) before anything is deactivated. */
    method OnDisable() returns (thrown: bool)
      requires Valid()
      modifies planeManager, planeManager.trackables.Values
      ensures Valid()
      ensures planeManager.planePrefab == None
      ensures planeManager.trackables == old(planeManager.trackables)
      ensures thrown <==> plane == null && |planeManager.trackables| > 0
      ensures forall id :: id in planeManager.trackables ==>
                planeManager.trackables[id].active ==
                  (if !thrown && plane != null && id != plane.trackableId then false
                   else old(planeManager.trackables[id].active))
      ensures plane != null ==> plane.active == old(plane.active)
      ensures forall q :: q in planeManager.trackables.Values ==> q.material == old(q.material)
    {
      planeManager.planePrefab := None;
      thrown := false;
      var trackables := planeManager.trackables;
      var remaining := trackables.Keys;
      while remaining != {}
        invariant remaining <= trackables.Keys
        invariant planeManager.trackables == trackables && planeManager.Valid()
        invariant planeManager.planePrefab == None
        invariant !thrown
        invariant remaining != trackables.Keys ==> plane != null
        invariant forall id :: id in trackables && id !in remaining ==>
                    trackables[id].active == (if id != plane.trackableId then false else old(trackables[id].active))
        invariant forall id :: id in remaining ==> trackables[id].active == old(trackables[id].active)
        invariant forall q :: q in trackables.Values ==> q.material == old(q.material)
        invariant plane != null ==> plane.active == old(plane.active)
        decreases remaining
      {
        var id :| id in remaining;
        var p := trackables[id];
        if plane == null {
          thrown := true;
          return;
        }
        if p.trackableId != plane.trackableId {
          p.active := false;
        }
        remaining := remaining - {id};
      }
    }
  }
}
