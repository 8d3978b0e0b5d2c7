/** BuildController: the touch handlers that create, select, move, rotate and scale
    placed objects. The fields are those of the C# class; `scene` is the part of the scene graph
    the handlers change. The engine's answers are inputs: whether a point is over UI,
    the AR raycast hit list and the physics raycast result for the event's screen point,
    and the two-finger distance. Each handler's new state is the matching function of
    module Gesture applied to the old state. */
module Build {
  import opened Engine
  import opened Raycast
  import opened Scene
  import Gesture
  import AppModel

  class BuildController {
    const createPrefab: seq<bool>
    const model: AppModel.Model
    var currentMode: Gesture.Mode
    var selected: Option<AnchorId>
    var lastPosition: Vec2
    var lastFromDirection: Vec3
    var lastMagnitude: real
    var touchCount: int
    var ignoreTouch: bool
    var scene: Store

    ghost function State(): Gesture.BuildState
      reads this
    {
      Gesture.BuildState(createPrefab, currentMode, selected, touchCount, ignoreTouch,
                         lastPosition, lastFromDirection, lastMagnitude, scene)
    }

    ghost predicate Valid()
      reads this
    {
      Gesture.Inv(State())
    }

    /** `_model.Plane`, by identity (None is null). */
    function BoundPlane(): Option<TrackableId>
      reads model
    {
      if model.plane == null then None else Some(model.plane.trackableId)
    }

    constructor (createPrefab: seq<bool>, model: AppModel.Model)
      requires |createPrefab| > GizmoIndex
      ensures Valid() && State() == Gesture.Initial(createPrefab) && this.model == model
    {
      this.createPrefab := createPrefab;
      this.model := model;
      currentMode := Gesture.Mode.Create;
      selected := None;
      lastPosition := Zero2;
      lastFromDirection := Zero3;
      lastMagnitude := 0.0;
      touchCount := 0;
      ignoreTouch := true;
      scene := EmptyStore;
    }

    method OnPressPerformed(primaryOverUI: bool)
      requires Valid()
      modifies this
      ensures Valid() && State() == Gesture.PressStarted(old(State()), primaryOverUI)
    {
      if primaryOverUI {
        return;
      }
      touchCount := touchCount + 1;
    }

    method OnPressCanceled()
      requires Valid()
      modifies this
      ensures Valid() && State() == Gesture.PressCanceled(old(State()))
    {
      if touchCount > 0 {
        touchCount := touchCount - 1;
      }
      if ignoreTouch {
        ignoreTouch := false;
      }
      lastPosition := Zero2;
      lastMagnitude := 0.0;
      lastFromDirection := Zero3;
    }

    method OnPositionPerformed(screenPosition: Vec2, overUI: bool, hits: seq<ARRaycastHit>, hit: Gesture.PhysicsHit)
      requires Valid()
      modifies this
      ensures Valid()
      ensures State() == Gesture.PositionPerformed(old(State()), screenPosition, overUI, hits, hit, BoundPlane())
    {
      if overUI {
        return;
      }
      if ignoreTouch {
        return;
      }
      match currentMode {
        case Select =>
          Select(hit);
        case Create =>
          Create(hits);
        case Manipulate =>
          if touchCount == 1 {
            ManipulateOneFinger(screenPosition, hits, hit);
          }
        case _ =>
      }
    }

    /** The body of the Manipulate case with one finger down. */
    method ManipulateOneFinger(screenPosition: Vec2, hits: seq<ARRaycastHit>, hit: Gesture.PhysicsHit)
      requires Valid() && currentMode == Gesture.Mode.Manipulate && touchCount == 1
      modifies this
      ensures Valid()
      ensures State() == Gesture.ManipulateOneFinger(old(State()), screenPosition, hits, hit, BoundPlane())
    {
      var engaged := Engage(screenPosition, hits, hit);
      if !engaged {
        return;
      }
      if lastPosition != Zero2 {
        var thrown := Move(hits);
        if thrown {
          return;
        }
      }
      if lastFromDirection != Zero3 {
        var thrown := Rotate(hits);
        if thrown {
          return;
        }
      }
    }

    /** The fresh-gesture test at the start of the one-finger Manipulate case; false when
        an exception ended the handler. */
    method Engage(screenPosition: Vec2, hits: seq<ARRaycastHit>, hit: Gesture.PhysicsHit) returns (completed: bool)
      requires Valid() && currentMode == Gesture.Mode.Manipulate && touchCount == 1
      modifies this
      ensures Valid()
      ensures Gesture.Engage(old(State()), screenPosition, hits, hit, BoundPlane())
              == if completed then Done(State()) else Threw
      ensures !completed ==> State() == old(State())
    {
      completed := true;
      if lastPosition == Zero2 && lastFromDirection == Zero3 {
        var onBody := IsSelected(hit);
        if onBody {
          lastPosition := screenPosition;
        } else {
          var onGizmo := IsRotateGizmoSelected(hit);
          if onGizmo {
            var direction := GetDirectionFromSelected(hits);
            if direction.Threw? {
              return false;
            }
            lastFromDirection := direction.value;
          } else {
            var selectedObject := scene.anchors[selected.value].children[0];
            scene := SetChildrenActive(scene, selectedObject, false);
            selected := None;
            currentMode := Gesture.Mode.Select;
          }
        }
      }
    }

    /** Rotate; true when an exception ended the handler. */
    method Rotate(hits: seq<ARRaycastHit>) returns (thrown: bool)
      requires Valid() && currentMode == Gesture.Mode.Manipulate && lastPosition == Zero2
      modifies this
      ensures Valid()
      ensures Gesture.RotateTo(old(State()), hits, BoundPlane()) == if thrown then Threw else Done(State())
      ensures thrown ==> State() == old(State())
    {
      var toDirection := GetDirectionFromSelected(hits);
      if toDirection.Threw? {
        return true;
      }
      thrown := false;
      var selectedObject := scene.anchors[selected.value].children[0];
      scene := TurnObject(scene, selectedObject, lastFromDirection, toDirection.value);
      lastFromDirection := toDirection.value;
    }

    method GetDirectionFromSelected(hits: seq<ARRaycastHit>) returns (direction: Try<Vec3>)
      requires Valid() && selected.Some?
      ensures direction == Gesture.DirectionFromSelected(State(), hits, BoundPlane())
    {
      var found := FindBoundHit(hits, BoundPlane());
      match found {
        case PlaneMissing =>
          direction := Threw;
        case SurfaceHit(pose) =>
          direction := Done(Sub(pose.position, scene.anchors[selected.value].pose.position));
        case NoSurfaceHit =>
          direction := Done(Zero3);
      }
    }

    method OnPositionSecondaryPerformed(magnitude: real, primaryHit: Gesture.PhysicsHit, secondaryHit: Gesture.PhysicsHit)
      requires Valid()
      modifies this
      ensures Valid()
      ensures State() == Gesture.SecondaryPositionPerformed(old(State()), magnitude, primaryHit, secondaryHit)
    {
      if touchCount == 2 {
        lastPosition := Zero2;
        if currentMode == Gesture.Mode.Manipulate {
          if lastMagnitude == 0.0 {
            var onBody := IsSelected(primaryHit);
            if !onBody {
              onBody := IsSelected(secondaryHit);
            }
            if onBody {
              lastMagnitude := magnitude;
            }
          } else {
            Scale(magnitude);
          }
        }
      }
    }

    method IsSelected(hit: Gesture.PhysicsHit) returns (b: bool)
      requires Valid() && selected.Some?
      ensures b == Gesture.IsSelected(State(), hit)
    {
      b := hit.PhysicsHit? && hit.target == Gesture.ObjectTransform(scene.anchors[selected.value].children[0]);
    }

    method IsRotateGizmoSelected(hit: Gesture.PhysicsHit) returns (b: bool)
      requires Valid() && selected.Some?
      ensures b == Gesture.IsRotateGizmoSelected(State(), hit)
    {
      b := false;
      if hit.PhysicsHit? {
        var cube := scene.anchors[selected.value].children[0];
        b := hit.target == Gesture.ObjectChild(cube, GizmoIndex);
      }
    }

    method Select(hit: Gesture.PhysicsHit)
      requires Valid() && currentMode == Gesture.Mode.Select
      modifies this
      ensures Valid() && State() == Gesture.SelectAt(old(State()), hit)
    {
      if hit.PhysicsHit? && hit.target.ObjectTransform? && hit.target.obj in scene.objects {
        var parent := scene.objects[hit.target.obj].parent;
        if parent in scene.anchors {
          selected := Some(parent);
          scene := SetChildrenActive(scene, hit.target.obj, true);
          currentMode := Gesture.Mode.Manipulate;
        }
      }
    }

    method Create(hits: seq<ARRaycastHit>)
      requires Valid() && currentMode == Gesture.Mode.Create
      modifies this
      ensures Valid() && State() == Gesture.CreateAt(old(State()), hits, BoundPlane())
    {
      var found := FindBoundHit(hits, BoundPlane());
      if found.SurfaceHit? {
        var anchor := scene.nextId;
        ghost var before := scene;
        scene := AttachAnchor(scene, model.plane.trackableId, found.pose);
        scene := Instantiate(scene, anchor, createPrefab);
        assert scene == Place(before, model.plane.trackableId, found.pose, createPrefab);
        selected := Some(anchor);
        currentMode := Gesture.Mode.Manipulate;
      }
    }

    /** Move; true when an exception ended the handler. `Reanchor` is the sequence of
        engine calls `BuildController.cs` makes: attach the new anchor, reparent the object to it,
        copy the old anchor's scale, destroy the old anchor. */
    method Move(hits: seq<ARRaycastHit>) returns (thrown: bool)
      requires Valid() && currentMode == Gesture.Mode.Manipulate
      modifies this
      ensures Valid()
      ensures Gesture.MoveTo(old(State()), hits, BoundPlane()) == if thrown then Threw else Done(State())
      ensures thrown ==> State() == old(State())
    {
      thrown := false;
      if touchCount == 1 {
        var found := FindBoundHit(hits, BoundPlane());
        if found.PlaneMissing? {
          return true;
        }
        if found.SurfaceHit? {
          var previous := selected.value;
          var anchor := scene.nextId;
          scene := Reanchor(scene, previous, model.plane.trackableId, found.pose);
          selected := Some(anchor);
        }
      }
    }

    method Scale(magnitude: real)
      requires Valid() && currentMode == Gesture.Mode.Manipulate && touchCount == 2
      modifies this
      ensures Valid() && State() == Gesture.ScaleBy(old(State()), magnitude)
    {
      var magnitudeDelta := magnitude - lastMagnitude;
      var scaleDelta := magnitudeDelta * Gesture.Sensitivity;
      var newScale := Gesture.Clamp(scene.anchors[selected.value].localScale.x + scaleDelta, MinScale, MaxScale);
      assert newScale == Gesture.ScaledValue(scene.anchors[selected.value].localScale.x, lastMagnitude, magnitude);
      scene := SetAnchorScale(scene, selected.value, Vec3(newScale, newScale, newScale));
      lastMagnitude := magnitude;
    }
  }
}
