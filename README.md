# AR Golf build core, modelled in Dafny

AR Golf is a Unity/AR Foundation app in which the player picks a detected floor plane, registers image markers, and then builds a course by placing objects on the plane. This project models the parts of that app that hold state and logic:

- **The build controller** (`BuildController`). This is a touch-driven state machine with modes Select, Create and Manipulate.
  - In Create, a touch on the bound plane attaches an AR anchor and spawns the create prefab under it.
  - In Select, a touch on an object's body selects its anchor.
  - In Manipulate, a one-finger touch on the body drags the object. Every drag step re-anchors it: attach a new anchor, reparent the object, copy the scale, destroy the old anchor.
  - In Manipulate, a one-finger touch on the rotation gizmo rotates the object by incremental from-to steps.
  - In Manipulate, a one-finger touch anywhere else deselects.
  - Two fingers scale the selected anchor uniformly by 0.001 per pixel of change in finger distance, clamped to [0.1, 2.0].
  - The gesture fields use zero vectors and a zero distance as their "not in progress" sentinels. The model keeps these sentinels.
- **Plane selection** (`PlaneSelectionController`): a one-slot selected-plane holder that swaps materials and notifies its listeners, and a loop that hides every other plane when the controller is disabled.
- **Marker spawning** (`MarkerController`): a name-keyed dictionary of spawned marker objects, filled insert-if-absent from a configured list of image/prefab pairs.
- **The application model** (`Model`): state and plane setters that notify, and an append-only list of tracked images.
- **`SelectableObject.Select`**: the loop that shows or hides every child of a placed object.

## Layout

- `engine.dfy` (module `Engine`): the values the engine and AR runtime supply. These are vectors over exact reals, poses, raycast hits, identities, `Option`, and `Try`. `Try` gives an engine call's outcome: a value, or a NullReferenceException that ends the handler.
- `raycast.dfy` (module `Raycast`): the "first hit on the bound plane" search that `Create`, `Move` and `GetDirectionFromSelected` each run. It has a specification function and the loop as a method.
- `selectable.dfy` (module `Selectable`): `SetAllActive`, and the `SelectableObject` class with its child loop over an array.
- `scene.dfy` (module `Scene`): the scene graph the build controller acts on. Anchors and placed objects are kept by identity, with the ordered log of anchor, spawn, reparent, scale-copy and destroy calls. The engine primitives are modelled as well-formedness-preserving functions. Well-formedness means every anchor owns exactly one placed object, every object has exactly one live anchor, and every scale is uniform and within range.
- `gesture.dfy` (module `Gesture`): each build-controller handler as a function on a snapshot of the controller's fields. It also states the invariant all handlers keep, and the fold `Run` over any sequence of touch events.
- `build_controller.dfy` (module `Build`): the `BuildController` class with the fields of the C# class. Each handler method is proved to produce exactly the state the matching `Gesture` function gives.
- `gesture_properties.dfy` (module `GestureProperties`): properties that span several events or relate an event to the scene it leaves.
- `planes.dfy` (module `Planes`): `ARPlane`, `ARPlaneManager` and `PlaneSelectionController` as classes. The plane objects are shared between the manager's map and the selection slot.
- `app_model.dfy` (module `AppModel`): the `Model` class. The invocations of its three events are kept, in order, as one log of notifications.
- `markers.dfy` (module `Markers`): specification functions and lemmas for marker spawning, and the `MarkerController` class with its loop over added images.

### Engine answers are inputs

The engine and AR runtime answer queries that the model takes as inputs:

- whether a point is over UI;
- the AR raycast hit list for a screen point;
- the physics raycast result for a screen point;
- the bound plane (`Model.Plane`, as an optional trackable identity);
- the two-finger distance.

Every query a handler makes for the same screen point inside one call sees the same answer.

### Behaviour that follows the code

- The controller starts in Create mode (`BuildController.cs:41`).
- Scaling does not need the body to be hit as the second finger arrives. While there is no baseline, every two-finger event repeats the body test (`BuildController.cs:186-190`), so any later two-finger event whose ray hits the body starts scaling.
- A touch-position event in Manipulate that both engages a drag and finds a surface hit moves the object in that same event, because the code tests `_lastPosition` right after setting it. The same holds for rotation.
- `Model.Plane` is dereferenced for each hit inside the three search loops. With a non-empty hit list and no bound plane, the handler stops with a NullReferenceException. The model keeps that: `PlaneMissing`, then `Threw`. Changes made earlier in the same handler stay.

## Model

| member | source | states |
|---|---|---|
| Raycast.FirstIndexOf | Assets/Scripts/Controllers/BuildController.cs:239-240 | the index of the first hit on the given trackable, all earlier hits being on other trackables, or the list length when there is none |
| Raycast.BoundSurfaceHit | Assets/Scripts/Controllers/BuildController.cs:238-248 | the exception happens exactly when there are hits but no bound plane; a surface hit exists exactly when some hit is on the bound plane, and its pose is that of the first such hit in list order |
| Raycast.FindBoundHit | Assets/Scripts/Controllers/BuildController.cs:238-247 | the search loop that dereferences the bound plane on every iteration and stops at the first match yields exactly `BoundSurfaceHit` |
| Engine.Sub | Assets/Scripts/Controllers/BuildController.cs:171 | the direction from the anchor to the hit is zero exactly when the two positions coincide, and adding it back to the anchor position gives the hit position |
| Selectable.SetAllActive | Assets/Scripts/Objects/SelectableObject.cs:6-10 | same number of children, and every child's active flag equals the argument |
| Selectable.SetAllActiveIdempotent | Assets/Scripts/Objects/SelectableObject.cs:7-9 | selecting twice with the same flag equals selecting once |
| Selectable.SetAllActiveLastWins | Assets/Scripts/Objects/SelectableObject.cs:6-10 | after selecting with b and then c, the state is that of selecting with c alone |
| Selectable.SelectableObject.Select | Assets/Scripts/Objects/SelectableObject.cs:6-10 | the loop leaves the child flags equal to `SetAllActive` of the old flags, keeps the child count, and never writes `_selected` |
| Scene.AttachAnchor | Assets/Scripts/Controllers/BuildController.cs:241 | the anchors gain a fresh anchor at the pose with unit scale and no children, and every existing anchor keeps its value; the call is logged; objects are unchanged |
| Scene.Instantiate | Assets/Scripts/Controllers/BuildController.cs:242 | a fresh object with the prefab's rotation is appended to the parent anchor's children, and the spawn is logged |
| Scene.SetParent | Assets/Scripts/Controllers/BuildController.cs:258 | the object leaves its old parent's children and is appended to the new parent's, it records the new parent, and the reparent is logged; nothing else changes |
| Scene.CopyScale | Assets/Scripts/Controllers/BuildController.cs:259 | only the target anchor's scale changes, to the source anchor's, and the copy is logged |
| Scene.DestroyAnchor | Assets/Scripts/Controllers/BuildController.cs:260 | only an anchor with no children may be destroyed; exactly that anchor disappears and the destroy is logged |
| Scene.SetAnchorScale | Assets/Scripts/Controllers/BuildController.cs:274 | only the anchor's scale changes, and a uniform in-range scale keeps the scene well formed |
| Scene.TurnObject | Assets/Scripts/Controllers/BuildController.cs:162 | the object's local rotation records the from-to step taken on its world rotation, in the frame of its anchor's pose rotation; nothing else changes |
| Scene.SetChildrenActive | Assets/Scripts/Controllers/BuildController.cs:229 | only that object's child flags change, to `SetAllActive`; parent, rotation, other objects and anchors are unchanged |
| Scene.Place | Assets/Scripts/Controllers/BuildController.cs:241-242 | the scene stays well formed, exactly one fresh anchor owning exactly one fresh object is added, and the log gains attach then spawn |
| Scene.PlaceKeepsValid | Assets/Scripts/Controllers/BuildController.cs:241-242 | adding a fresh anchor that owns only a fresh object parented to it keeps every anchor and object well formed |
| Scene.Reanchor | Assets/Scripts/Controllers/BuildController.cs:257-260 | the scene stays well formed; the old anchor is gone, and the new anchor at the hit pose has the old scale and owns the object, which keeps its rotation; the log gains attach, reparent, scale-copy and destroy in that order |
| Scene.ReanchorSteps | Assets/Scripts/Controllers/BuildController.cs:257-260 | each of the four calls Move makes is allowed at its point in the order (in particular the old anchor has no children when it is destroyed), and together they replace the old anchor by the new one, which owns the object |
| Scene.ReanchorFrame | Assets/Scripts/Controllers/BuildController.cs:257-260 | re-anchoring changes only the two anchors and the one object involved, and the new anchor is the object's only owner |
| Scene.ReanchorKeepsValid | Assets/Scripts/Controllers/BuildController.cs:257-260 | replacing the selected anchor by a fresh one that owns its object keeps every anchor and object well formed |
| Scene.OwnerIsParent | Assets/Scripts/Controllers/BuildController.cs:258 | in a well-formed scene an object listed under an anchor has that anchor as its parent, so it has exactly one owner |
| Gesture.Initial | Assets/Scripts/Controllers/BuildController.cs:41-53 | the field initialisers satisfy the invariant: mode Create, nothing selected, no touches, touches ignored |
| Gesture.PressStarted | Assets/Scripts/Controllers/BuildController.cs:80-86 | the counter rises by one exactly when the primary point is not over UI; nothing else changes |
| Gesture.PressCanceled | Assets/Scripts/Controllers/BuildController.cs:93-105 | the counter falls only while positive; the ignore latch clears; drag position, scale baseline and rotation direction return to zero; mode, selection and scene are kept |
| Gesture.SelectedObject | Assets/Scripts/Controllers/BuildController.cs:213 | child 0 of the selected anchor is a placed object whose parent is that anchor |
| Gesture.SelectAt | Assets/Scripts/Controllers/BuildController.cs:221-233 | selecting keeps the invariant (Manipulate together with a selection); its effect is stated by `SelectPicksAnchor` and `SelectMissNoOp` |
| Gesture.CreateAt | Assets/Scripts/Controllers/BuildController.cs:235-249 | creating keeps the invariant |
| Gesture.Deselect | Assets/Scripts/Controllers/BuildController.cs:136-138 | deselecting keeps the invariant (Select together with no selection) |
| Gesture.Engage | Assets/Scripts/Controllers/BuildController.cs:130-140 | the gesture start keeps the invariant (drag and rotation are never both engaged); its effect is stated by `BodyHitStartsDrag`, `GizmoHitStartsRotation` and `MissDeselects` |
| Gesture.MoveTo | Assets/Scripts/Controllers/BuildController.cs:251-267 | a completed move keeps the invariant |
| Gesture.RotateTo | Assets/Scripts/Controllers/BuildController.cs:155-164 | a completed rotation step keeps the invariant |
| Gesture.ManipulateOneFinger | Assets/Scripts/Controllers/BuildController.cs:128-149 | the one-finger Manipulate branch keeps the invariant, whether or not an exception ends it |
| Gesture.PositionPerformed | Assets/Scripts/Controllers/BuildController.cs:107-153 | over UI, or before the first press has ended, the event changes nothing; it never changes the counter, the latch or the scale baseline |
| Gesture.Clamp | Assets/Scripts/Controllers/BuildController.cs:273 | the result lies in the bounds, is the input when the input does, and is the nearer bound otherwise |
| Gesture.ScaledValue | Assets/Scripts/Controllers/BuildController.cs:270-273 | the new scale lies in [0.1, 2.0]: the old scale plus 0.001 times the distance change when that is in range, else the bound it passed |
| Gesture.ScaleBy | Assets/Scripts/Controllers/BuildController.cs:269-277 | scaling keeps the invariant, so every anchor's scale stays uniform and in range |
| Gesture.SecondaryPositionPerformed | Assets/Scripts/Controllers/BuildController.cs:179-197 | with exactly two fingers down the drag position is cleared; otherwise nothing changes; mode, selection and counter are always kept; the baseline and the scale step are stated by `ScaleBaselineOnBodyHit`, `ScaleNeedsBodyHit`, `ScaleEngagesLate` and `ScaleStep` |
| Gesture.Step | Assets/Scripts/Controllers/BuildController.cs:65-72 | each press-start, press-end, primary-position and secondary-position event keeps the invariant |
| Gesture.Run | Assets/Scripts/Controllers/BuildController.cs:80-197 | for every event sequence the counter is never negative, Move and Scale modes are never entered, the mode is Manipulate exactly when an anchor is selected, drag and rotation are never both engaged, and every anchor's scale stays uniform in [0.1, 2.0] |
| Build.BuildController.OnPressPerformed | Assets/Scripts/Controllers/BuildController.cs:80-86 | the handler leaves exactly the state `Gesture.PressStarted` gives, and keeps the invariant |
| Build.BuildController.OnPressCanceled | Assets/Scripts/Controllers/BuildController.cs:93-105 | the handler leaves exactly the state `Gesture.PressCanceled` gives |
| Build.BuildController.OnPositionPerformed | Assets/Scripts/Controllers/BuildController.cs:107-153 | the handler leaves exactly the state `Gesture.PositionPerformed` gives for the bound plane of the model |
| Build.BuildController.ManipulateOneFinger | Assets/Scripts/Controllers/BuildController.cs:128-149 | the one-finger Manipulate branch leaves exactly the state `Gesture.ManipulateOneFinger` gives |
| Build.BuildController.Engage | Assets/Scripts/Controllers/BuildController.cs:130-140 | the gesture start yields `Gesture.Engage`; on the exception nothing has changed |
| Build.BuildController.Rotate | Assets/Scripts/Controllers/BuildController.cs:155-164 | a rotation step yields `Gesture.RotateTo`; on the exception nothing has changed |
| Build.BuildController.GetDirectionFromSelected | Assets/Scripts/Controllers/BuildController.cs:166-177 | the direction is `Gesture.DirectionFromSelected`: towards the first bound-plane hit, zero on a miss, the exception with hits but no plane |
| Build.BuildController.OnPositionSecondaryPerformed | Assets/Scripts/Controllers/BuildController.cs:179-197 | the handler leaves exactly the state `Gesture.SecondaryPositionPerformed` gives |
| Build.BuildController.IsSelected | Assets/Scripts/Controllers/BuildController.cs:199-207 | true exactly when the ray struck child 0 of the selected anchor |
| Build.BuildController.IsRotateGizmoSelected | Assets/Scripts/Controllers/BuildController.cs:209-219 | true exactly when the ray struck child 1 of the selected object |
| Build.BuildController.Select | Assets/Scripts/Controllers/BuildController.cs:221-233 | the handler leaves exactly the state `Gesture.SelectAt` gives |
| Build.BuildController.Create | Assets/Scripts/Controllers/BuildController.cs:235-249 | the handler leaves exactly the state `Gesture.CreateAt` gives |
| Build.BuildController.Move | Assets/Scripts/Controllers/BuildController.cs:251-267 | attach, reparent, copy-scale, destroy and reselect in that order yield exactly `Gesture.MoveTo`; on the exception nothing has changed |
| Build.BuildController.Scale | Assets/Scripts/Controllers/BuildController.cs:269-277 | the handler leaves exactly the state `Gesture.ScaleBy` gives |
| GestureProperties.IgnoredUntilFirstRelease | Assets/Scripts/Controllers/BuildController.cs:114-116 | until the first press ends, any events outside Manipulate change nothing but the counter |
| GestureProperties.CreatePlacesOne | Assets/Scripts/Controllers/BuildController.cs:235-249 | a hit on the bound plane adds exactly one anchor at that pose, with unit scale, owning exactly one new object with the prefab's rotation; that anchor is selected and the mode is Manipulate; the log gains attach then spawn |
| GestureProperties.SelectPicksAnchor | Assets/Scripts/Controllers/BuildController.cs:221-233 | in Select, a ray on a placed object's body selects that object's anchor, shows the object's children and enters Manipulate; the object is then the selected one, and no anchor and no other object changes |
| GestureProperties.SelectMissNoOp | Assets/Scripts/Controllers/BuildController.cs:221-227 | in Select, a miss or a ray on anything but a placed object's body changes nothing |
| GestureProperties.CreateMissIsNoOp | Assets/Scripts/Controllers/BuildController.cs:238-248 | in Create, without a hit on the bound plane the event changes nothing |
| GestureProperties.MissDeselects | Assets/Scripts/Controllers/BuildController.cs:130-139 | a fresh touch on neither body nor gizmo hides the object's children, clears the selection and returns to Select, moving and rotating nothing |
| GestureProperties.DeselectThenNoOp | Assets/Scripts/Controllers/BuildController.cs:130-139 | after that deselection the same touch, striking no object's body, is a no-op |
| GestureProperties.DragFromOriginNeverStarts | Assets/Scripts/Controllers/BuildController.cs:130-144 | a body touch exactly at the screen origin is read as "no drag" by the zero sentinel, and changes nothing |
| GestureProperties.BodyHitStartsDrag | Assets/Scripts/Controllers/BuildController.cs:130-144 | a fresh body touch away from the origin records the drag position; with a hit on the bound plane the same event re-anchors the object there and selects the new anchor, otherwise nothing else changes |
| GestureProperties.GizmoHitStartsRotation | Assets/Scripts/Controllers/BuildController.cs:130-148 | a fresh gizmo touch records the direction from the selected anchor to the bound-plane hit; a non-zero direction then turns the object by the step from that direction to itself, a zero one turns nothing, and a missing bound plane changes nothing |
| GestureProperties.MoveReanchors | Assets/Scripts/Controllers/BuildController.cs:251-267 | each drag step with a bound-plane hit leaves the object owned by the one new anchor at the hit pose, with the old scale; the old anchor is gone, other anchors and objects are unchanged, and the log gains attach, reparent, scale-copy, destroy |
| GestureProperties.MoveMissIsNoOp | Assets/Scripts/Controllers/BuildController.cs:251-267 | a drag step without a bound-plane hit changes nothing |
| GestureProperties.RotateInProgress | Assets/Scripts/Controllers/BuildController.cs:146-164 | with a rotation direction recorded, a one-finger touch turns the selected object by the step from that direction to the new one in its anchor's frame and records the new direction; no anchor changes |
| GestureProperties.RotateIsIncremental | Assets/Scripts/Controllers/BuildController.cs:155-164 | two rotation steps compose their from-to steps onto the object's orientation in order, both in the selected anchor's frame, without resetting it |
| GestureProperties.PlaneMissingMovesNothing | Assets/Scripts/Controllers/BuildController.cs:107-153 | when hits arrive but no plane is bound, no anchor changes and no object is reparented or rotated |
| GestureProperties.PlaneMissingManipulate | Assets/Scripts/Controllers/BuildController.cs:128-149 | the same for the one-finger Manipulate branch |
| GestureProperties.PlaneMissingEngage | Assets/Scripts/Controllers/BuildController.cs:130-140 | the gesture start can then only record a drag position or deselect; no anchor, parent, rotation or rotation direction changes |
| GestureProperties.NoScaleWithoutSelection | Assets/Scripts/Controllers/BuildController.cs:179-197 | outside Manipulate, any run of two-finger events changes nothing: no baseline is set and no scale changes |
| GestureProperties.ScaleNeedsBodyHit | Assets/Scripts/Controllers/BuildController.cs:179-190 | while every two-finger event misses the selected object's body, by induction over any such run, no baseline is recorded and nothing but the drag position changes |
| GestureProperties.ScaleEngagesLate | Assets/Scripts/Controllers/BuildController.cs:186-194 | the body test is repeated while there is no baseline: after a miss, a later two-finger event that hits the body records the distance as the baseline, and the next one scales the selected anchor from it |
| GestureProperties.ScaleBaselineOnBodyHit | Assets/Scripts/Controllers/BuildController.cs:186-189 | with no baseline, a two-finger event whose ray from either finger strikes the selected object's body records the distance as the baseline and clears the drag position; nothing else changes |
| GestureProperties.ScaleStep | Assets/Scripts/Controllers/BuildController.cs:269-277 | a scale step sets the selected anchor's scale to the clamped value on all three axes, takes the new distance as the baseline and clears the drag position; nothing else in the state changes |
| GestureProperties.PinchScenario | Assets/Scripts/Controllers/BuildController.cs:186-194 | fingers on the body at 100 pixels apart and then 150 take a unit-scale object to scale 1.05 on every axis |
| GestureProperties.CreateScenario | Assets/Scripts/Controllers/BuildController.cs:80-153 | from the initial state, press, release, press and a touch on the bound plane leave exactly one anchor at the hit pose, with unit scale, owning one object; it is selected and the mode is Manipulate |
| Planes.ARPlaneManager.GetPlane | Assets/Scripts/Controllers/PlaneSelectionController.cs:111 | the tracked plane with the identity, or null exactly when no plane has it |
| Planes.PlaneSelectionController.SetPlane | Assets/Scripts/Controllers/PlaneSelectionController.cs:28-34 | the slot holds the value, and the event is invoked once, with the value |
| Planes.PlaneSelectionController.DeselectPlane | Assets/Scripts/Controllers/PlaneSelectionController.cs:122-128 | afterwards no plane is selected; a previously selected plane has the default material and one null notification is sent; without one nothing is sent |
| Planes.PlaneSelectionController.HandleSelectPlane | Assets/Scripts/Controllers/PlaneSelectionController.cs:102-117 | the old plane is always deselected first; a miss leaves none selected; a hit selects the first hit's plane with the selected material and notifies it; an untracked first hit is the exception; no other plane changes |
| Planes.PlaneSelectionController.OnDisable | Assets/Scripts/Controllers/PlaneSelectionController.cs:83-91 | the plane prefab is cleared; every tracked plane other than the selected one is deactivated and the selected one is untouched; with planes but no selection the exception is raised before any is deactivated |
| AppModel.Model.SetPlane | Assets/Scripts/Models/Model.cs:36-42 | the plane is stored and exactly one notification, `PlaneChange` with it, is appended to the log; state and list are unchanged; the latest notification of each kind carries the current value |
| AppModel.Model.SetState | Assets/Scripts/Models/Model.cs:47-53 | the state is stored and exactly one notification, `StateChange` with it, is appended to the log; plane and list are unchanged |
| AppModel.Model.Start | Assets/Scripts/Models/Model.cs:78-81 | afterwards the state is SurfaceSelection and no plane is set; the log gains `StateChange(SurfaceSelection)` and then `PlaneChange(null)`, in that order |
| AppModel.Model.AddTrackedImageObject | Assets/Scripts/Models/Model.cs:87-90 | exactly one image is appended at the end, earlier images are unchanged, and one `TrackedImagesChanged` notification carrying the new list is appended to the log |
| Markers.Find | Assets/Scripts/Controllers/MarkerController.cs:101-102 | none exactly when no pair has the name; otherwise the first pair in list order with the name |
| Markers.CreateMarker | Assets/Scripts/Controllers/MarkerController.cs:97-108 | existing entries are never overwritten or removed; the name is a key afterwards exactly when it was or some pair names it; an unmatched or present name changes nothing; a new entry is one spawn of the first matching pair's prefab under the image |
| Markers.CreateMarkerKeepsInv | Assets/Scripts/Controllers/MarkerController.cs:100-106 | at most one object is ever spawned per name, each spawned object is the one recorded under its image's name, and each recorded object comes from the first matching pair's prefab |
| Markers.SpawnKeepsOnePerName | Assets/Scripts/Controllers/MarkerController.cs:100-105 | spawning for a name not yet recorded keeps at most one spawn per name |
| Markers.SpawnKeepsRecords | Assets/Scripts/Controllers/MarkerController.cs:104-105 | recording a new spawn under its name keeps the spawn log and the dictionary in step |
| Markers.CreateMarkersKeepsInv | Assets/Scripts/Controllers/MarkerController.cs:87-91 | the same invariant holds after any batch of added images |
| Markers.CreateMarkersGrows | Assets/Scripts/Controllers/MarkerController.cs:87-106 | the dictionary only grows: every entry survives a batch unchanged |
| Markers.CreateMarkersKeys | Assets/Scripts/Controllers/MarkerController.cs:87-106 | after a batch a name is a key exactly when it was, or some added image has it and some pair names it |
| Markers.CreateMarkerOncePerName | Assets/Scripts/Controllers/MarkerController.cs:100 | a second image with the same name spawns nothing |
| Markers.MarkerController.CreateMarkerObject | Assets/Scripts/Controllers/MarkerController.cs:97-108 | the method leaves exactly the state `CreateMarker` gives, and keeps the invariant |
| Markers.MarkerController.OnTrackedImagesChanged | Assets/Scripts/Controllers/MarkerController.cs:87-91 | the loop processes the added images in order, giving `CreateMarkers` of them; the updated and removed lists have no effect |

## Left out

- Unity lifecycle and event wiring (`Awake`, `OnEnable` and `OnDisable` subscriptions, `GetComponent`) is left out. Events are explicit method calls, and collaborators are constructor arguments.
- AR Foundation raycasts, `Physics.Raycast`, `Camera.ScreenPointToRay` and `View.IsPointerOverUI` are left out. Their results are inputs, and every query for the same point within one handler call sees the same result.
- Quaternion arithmetic is left out. A rotation is the uninterpreted history of from-to steps, so no algebraic law of composed rotations is modelled.
- Scene.TurnObject: an object's world rotation, its anchor's pose rotation times its local rotation, is not computed, because quaternion products are not modelled. The model keeps the local rotation; a turn records the anchor frame it was taken in, and a reparent keeps the local rotation, as `SetParent(anchor.transform, false)` does.
- `Vector2.Distance` is left out, because square roots are not modelled. The two-finger distance is an input.
- Float rounding is left out. Coordinates, scales and distances are exact reals, so `0.001f` is exactly 0.001 and scale 1.05 is exact.
- Gesture.PressStarted: the 32-bit wrap-around of `_touchCount` after 2^31 presses is not modelled, because the counter is an unbounded integer.
- `ARAnchorManager.AttachAnchor` returning null is not modelled; the anchor service always succeeds.
- `Destroy(_selected)` destroys the `ARAnchor` component, not its game object. The model treats the anchor as gone, so the empty transform left in the scene is not modelled.
- The create prefab must have at least two children; child 1 is the rotation gizmo. With fewer, `GetChild(1)` would throw, and that case is not modelled.
- A physics hit on a transform with no parent throws in `Select` before anything changes. The model treats it as a hit on something that is not an anchored object, which changes nothing as well.
- A physics hit on a child of an anchor that has no `SelectableObject` would throw after `_selected = anchor` (`BuildController.cs:228-229`). `BuildController` would then be left with `_selected` set while the mode is still Select, which breaks the rule that the mode is Manipulate exactly when something is selected. In the model every child of an anchor is a spawned create prefab, which carries a `SelectableObject`, so this state is not captured.
- Null entries in `imagePrefabPairs` are not modelled: the pair list is a sequence of values. `Debug.Log` is left out.
- The doc comment of `OnTrackedImagesChanged` says removed images have their objects destroyed. The code does not do this, and the model follows the code.
- `TrackedImagesChanged` is invoked with the list object itself. The model records a snapshot of the list at each invocation, so later aliasing of that list by listeners is not modelled.
- `AppState` is declared in a file that is not part of this model. Its values are taken from their uses in `View.cs`.
- `View.cs`, the two `ActionController.cs` files, `Controller.cs`, the older `Assets/Scripts/PlaneSelectionController.cs` and the custom UI controls are presentation code and are not part of this model.
