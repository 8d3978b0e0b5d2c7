/** Model: the application state. The `Plane` and `State` setters store the value and
    then notify with it, and tracked images are appended to a list that is then
    announced. The notifications of all three events are kept, in the order they were
    sent, as one log. */
module AppModel {
  import opened Engine
  import Planes

  /** The application states (the values the views use). */
  datatype AppState = SurfaceSelection | MarkerRegistration | Build

  /** One invocation of `PlaneChange`, `StateChange` or `TrackedImagesChanged`, with
      the value it carried. */
  datatype Notification =
    | PlaneChanged(plane: Planes.ARPlane?)
    | StateChanged(state: AppState)
    | TrackedImagesChanged(images: seq<TrackedImage>)

  /** The plane carried by the latest `PlaneChange` in `log`, if any. */
  function LastPlane(log: seq<Notification>): Option<Planes.ARPlane?> {
    if log == [] then None
    else if log[|log| - 1].PlaneChanged? then Some(log[|log| - 1].plane)
    else LastPlane(log[..|log| - 1])
  }

  /** The state carried by the latest `StateChange` in `log`, if any. */
  function LastState(log: seq<Notification>): Option<AppState> {
    if log == [] then None
    else if log[|log| - 1].StateChanged? then Some(log[|log| - 1].state)
    else LastState(log[..|log| - 1])
  }

  /** The list carried by the latest `TrackedImagesChanged` in `log`, if any. */
  function LastImages(log: seq<Notification>): Option<seq<TrackedImage>> {
    if log == [] then None
    else if log[|log| - 1].TrackedImagesChanged? then Some(log[|log| - 1].images)
    else LastImages(log[..|log| - 1])
  }

  class Model {
    /** `_plane`: the plane the user selected, or null. */
    var plane: Planes.ARPlane?
    /** `_state`. */
    var state: AppState
    var maximumTrackedImages: int
    var trackedImages: seq<TrackedImage>
    /** Every notification sent so far, oldest first. */
    var notifications: seq<Notification>

    /** The latest notification of each kind carries the current value, and every list
        announced is a prefix of the current one. */
    ghost predicate Valid()
      reads this
    {
      && (LastPlane(notifications).Some? ==> LastPlane(notifications).value == plane)
      && (LastState(notifications).Some? ==> LastState(notifications).value == state)
      && (LastImages(notifications).Some? ==> LastImages(notifications).value == trackedImages)
      && (forall i :: 0 <= i < |notifications| && notifications[i].TrackedImagesChanged? ==>
            notifications[i].images <= trackedImages)
    }

    /** A fresh component: `state0` is the enum's default value, `trackedImages` the
        serialized list. */
    constructor (state0: AppState, trackedImages: seq<TrackedImage>, maximumTrackedImages: int)
      ensures Valid()
      ensures plane == null && state == state0 && this.trackedImages == trackedImages
      ensures this.maximumTrackedImages == maximumTrackedImages
      ensures notifications == []
    {
      plane := null;
      state := state0;
      this.trackedImages := trackedImages;
      this.maximumTrackedImages := maximumTrackedImages;
      notifications := [];
    }

    /** The `Plane` setter. */
    method SetPlane(value: Planes.ARPlane?)
      requires Valid()
      modifies this
      ensures Valid()
      ensures plane == value && notifications == old(notifications) + [PlaneChanged(value)]
      ensures state == old(state) && trackedImages == old(trackedImages)
    {
      var log := notifications;
      plane := value;
      notifications := notifications + [PlaneChanged(value)];
      assert notifications[..|notifications| - 1] == log;
    }

    /** The `State` setter. */
    method SetState(value: AppState)
      requires Valid()
      modifies this
      ensures Valid()
      ensures state == value && notifications == old(notifications) + [StateChanged(value)]
      ensures plane == old(plane) && trackedImages == old(trackedImages)
    {
      var log := notifications;
      state := value;
      notifications := notifications + [StateChanged(value)];
      assert notifications[..|notifications| - 1] == log;
    }

    /** Start: surface selection, then no plane; each assignment notifies, in that order. */
    method Start()
      requires Valid()
      modifies this
      ensures Valid()
      ensures state == SurfaceSelection && plane == null
      ensures notifications == old(notifications) + [StateChanged(SurfaceSelection), PlaneChanged(null)]
      ensures trackedImages == old(trackedImages)
    {
      SetState(SurfaceSelection);
      SetPlane(null);
    }

    /** AddTrackedImageObject: append one image, then announce the list. */
    method AddTrackedImageObject(image: TrackedImage)
      requires Valid()
      modifies this
      ensures Valid()
      ensures trackedImages == old(trackedImages) + [image]
      ensures |trackedImages| == |old(trackedImages)| + 1 && trackedImages[|trackedImages| - 1] == image
      ensures old(trackedImages) <= trackedImages
      ensures notifications == old(notifications) + [TrackedImagesChanged(trackedImages)]
      ensures plane == old(plane) && state == old(state)
    {
      var log := notifications;
      trackedImages := trackedImages + [image];
      notifications := notifications + [TrackedImagesChanged(trackedImages)];
      assert notifications[..|notifications| - 1] == log;
    }
  }
}
