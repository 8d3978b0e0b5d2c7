/** The build controller's touch-gesture state machine as functions on a snapshot of
    its fields. Each function is one event handler (or a private method it calls);
    the class in module Build runs the same steps on its fields and is proved to
    agree with these functions. The "gesture in progress" fields keep the zero
    sentinels of `BuildController.cs`: a zero drag position, rotation direction or scale baseline
    means that no drag, rotation or scale is in progress. */
module Gesture {
  import opened Engine
  import opened Raycast
  import opened Scene
  import Selectable

  /** The controller's modes. `Move` and `Scale` are declared but never entered. */
  datatype Mode = Select | Create | Manipulate | Move | Scale

  /** Scale change per unit of change in two-finger distance. */
  const Sensitivity: real := 0.001

  /** What the physics raycast from a screen point struck: a placed object's own
      transform (its body), the child at `index` of a placed object (index 1 is the
      rotation gizmo), or a transform whose parent is not an anchor. */
  datatype HitTarget = ObjectTransform(obj: ObjectId) | ObjectChild(obj: ObjectId, index: nat) | OtherTransform

  datatype PhysicsHit = PhysicsMiss | PhysicsHit(target: HitTarget)

  /** The fields of the controller: `_currentMode`, `_selected` (None is null),
      `_touchCount`, `_ignoreTouch`, `_lastPosition`, `_lastFromDirection`,
      `_lastMagnitude`, the active flags of the create prefab's children, and the
      scene graph the controller acts on. */
  datatype BuildState = BuildState(
    createPrefab: seq<bool>,
    mode: Mode,
    selected: Option<AnchorId>,
    touchCount: int,
    ignoreTouch: bool,
    lastPosition: Vec2,
    lastFromDirection: Vec3,
    lastMagnitude: real,
    store: Store)

  /** The invariant every handler keeps. */
  ghost predicate Inv(s: BuildState) {
    && |s.createPrefab| > GizmoIndex
    && s.touchCount >= 0
    && (s.mode == Select || s.mode == Create || s.mode == Manipulate)
    && (s.mode == Manipulate <==> s.selected.Some?)
    && (s.selected.Some? ==> s.selected.value in s.store.anchors)
    // at most one of drag and rotate is engaged
    && (s.lastPosition == Zero2 || s.lastFromDirection == Zero3)
    // no gesture is in progress unless an object is selected
    && (s.mode != Manipulate ==> s.lastPosition == Zero2 && s.lastFromDirection == Zero3 && s.lastMagnitude == 0.0)
    && (s.lastMagnitude != 0.0 ==> s.touchCount >= 2)
    && Valid(s.store)
  }

  /** A one-finger position handler leaves the press counter, the ignore latch, the
      scale baseline and the prefab alone. */
  predicate KeepsCounters(s: BuildState, r: BuildState) {
    r.touchCount == s.touchCount && r.ignoreTouch == s.ignoreTouch
    && r.lastMagnitude == s.lastMagnitude && r.createPrefab == s.createPrefab
  }

  /** The field initialisers: mode Create, nothing selected, touches ignored until the
      first press ends. */
  function Initial(createPrefab: seq<bool>): (s: BuildState)
    requires |createPrefab| > GizmoIndex
    ensures Inv(s)
    ensures s.mode == Create && s.selected == None && s.touchCount == 0 && s.ignoreTouch
    ensures s.store.anchors == map[] && s.store.objects == map[]
  {
    BuildState(createPrefab, Create, None, 0, true, Zero2, Zero3, 0.0, EmptyStore)
  }

  /** OnPressPerformed: a press counts only when the primary point is not over UI. */
  function PressStarted(s: BuildState, primaryOverUI: bool): (r: BuildState)
    requires Inv(s)
    ensures Inv(r)
    ensures r.touchCount == if primaryOverUI then s.touchCount else s.touchCount + 1
    ensures r.(touchCount := s.touchCount) == s
  {
    if primaryOverUI then s else s.(touchCount := s.touchCount + 1)
  }

  /** OnPressCanceled: the counter falls only while positive; the latch clears and every
      gesture field returns to zero. */
  function PressCanceled(s: BuildState): (r: BuildState)
    requires Inv(s)
    ensures Inv(r)
    ensures r.touchCount == if s.touchCount > 0 then s.touchCount - 1 else 0
    ensures !r.ignoreTouch && r.lastPosition == Zero2 && r.lastMagnitude == 0.0 && r.lastFromDirection == Zero3
    ensures r.mode == s.mode && r.selected == s.selected && r.store == s.store
  {
    s.(touchCount := if s.touchCount > 0 then s.touchCount - 1 else s.touchCount,
       ignoreTouch := false,
       lastPosition := Zero2,
       lastMagnitude := 0.0,
       lastFromDirection := Zero3)
  }

  /** `_selected.transform.GetChild(0)`: the selected anchor's object. */
  function SelectedObject(s: BuildState): (o: ObjectId)
    requires Inv(s) && s.selected.Some?
    ensures o in s.store.objects && s.store.objects[o].parent == s.selected.value
  {
    assert AnchorOk(s.store, s.selected.value);
    s.store.anchors[s.selected.value].children[0]
  }

  /** IsSelected: the ray struck the selected object's body. */
  predicate IsSelected(s: BuildState, hit: PhysicsHit)
    requires Inv(s) && s.selected.Some?
  {
    hit.PhysicsHit? && hit.target == ObjectTransform(SelectedObject(s))
  }

  /** IsRotateGizmoSelected: the ray struck child 1 of the selected object. */
  predicate IsRotateGizmoSelected(s: BuildState, hit: PhysicsHit)
    requires Inv(s) && s.selected.Some?
  {
    hit.PhysicsHit? && hit.target == ObjectChild(SelectedObject(s), GizmoIndex)
  }

  /** Select: a ray that strikes an object whose parent is an anchor selects that anchor,
      shows the object's children and enters Manipulate; anything else changes nothing. */
  function SelectAt(s: BuildState, hit: PhysicsHit): (r: BuildState)
    requires Inv(s) && s.mode == Select
    ensures Inv(r)
    ensures KeepsCounters(s, r)
  {
    if hit.PhysicsHit? && hit.target.ObjectTransform? && hit.target.obj in s.store.objects
       && s.store.objects[hit.target.obj].parent in s.store.anchors
    then
      var o := hit.target.obj;
      s.(selected := Some(s.store.objects[o].parent),
         store := SetChildrenActive(s.store, o, true),
         mode := Manipulate)
    else s
  }

  /** Create: on the first hit on the bound plane, attach an anchor there, spawn the
      prefab under it, select the anchor and enter Manipulate. */
  function CreateAt(s: BuildState, hits: seq<ARRaycastHit>, plane: Option<TrackableId>): (r: BuildState)
    requires Inv(s) && s.mode == Create
    ensures Inv(r)
    ensures KeepsCounters(s, r)
  {
    match BoundSurfaceHit(hits, plane)
    case SurfaceHit(pose) =>
      s.(store := Place(s.store, plane.value, pose, s.createPrefab),
         selected := Some(s.store.nextId),
         mode := Manipulate)
    case _ => s
  }

  /** GetDirectionFromSelected: from the selected anchor's position to the first hit on
      the bound plane, or the zero vector when there is none. */
  function DirectionFromSelected(s: BuildState, hits: seq<ARRaycastHit>, plane: Option<TrackableId>): (r: Try<Vec3>)
    requires Inv(s) && s.selected.Some?
  {
    match BoundSurfaceHit(hits, plane)
    case NoSurfaceHit => Done(Zero3)
    case PlaneMissing => Threw
    case SurfaceHit(pose) => Done(Sub(pose.position, s.store.anchors[s.selected.value].pose.position))
  }

  /** The deselect branch: hide the object's children, drop the selection, back to Select. */
  function Deselect(s: BuildState): (r: BuildState)
    requires Inv(s) && s.mode == Manipulate && s.touchCount == 1
    requires s.lastPosition == Zero2 && s.lastFromDirection == Zero3
    ensures Inv(r)
    ensures KeepsCounters(s, r)
  {
    s.(store := SetChildrenActive(s.store, SelectedObject(s), false), selected := None, mode := Select)
  }

  /** The start of a one-finger gesture in Manipulate: when neither drag nor rotation is in
      progress, a body hit records the drag position, a gizmo hit records the rotation
      direction, and any other ray deselects. */
  function Engage(s: BuildState, p: Vec2, hits: seq<ARRaycastHit>, hit: PhysicsHit, plane: Option<TrackableId>): (r: Try<BuildState>)
    requires Inv(s) && s.mode == Manipulate && s.touchCount == 1
    ensures r.Done? ==> Inv(r.value)
    ensures r.Done? ==> KeepsCounters(s, r.value) && r.value.mode != Create
  {
    if s.lastPosition == Zero2 && s.lastFromDirection == Zero3 then
      if IsSelected(s, hit) then Done(s.(lastPosition := p))
      else if IsRotateGizmoSelected(s, hit) then
        match DirectionFromSelected(s, hits, plane)
        case Done(d) => Done(s.(lastFromDirection := d))
        case Threw => Threw
      else Done(Deselect(s))
    else Done(s)
  }

  /** Move: with one finger down, re-anchor the selected object at the first hit on the
      bound plane; a miss changes nothing. */
  function MoveTo(s: BuildState, hits: seq<ARRaycastHit>, plane: Option<TrackableId>): (r: Try<BuildState>)
    requires Inv(s) && s.mode == Manipulate
    ensures r.Done? ==> Inv(r.value)
    ensures r.Done? ==> KeepsCounters(s, r.value) && r.value.mode == Manipulate
  {
    if s.touchCount == 1 then
      match BoundSurfaceHit(hits, plane)
      case NoSurfaceHit => Done(s)
      case PlaneMissing => Threw
      case SurfaceHit(pose) =>
        Done(s.(store := Reanchor(s.store, s.selected.value, plane.value, pose),
                selected := Some(s.store.nextId)))
    else Done(s)
  }

  /** Rotate: turn the selected object by the step from the last direction to the new one,
      and remember the new direction. */
  function RotateTo(s: BuildState, hits: seq<ARRaycastHit>, plane: Option<TrackableId>): (r: Try<BuildState>)
    requires Inv(s) && s.mode == Manipulate && s.lastPosition == Zero2
    ensures r.Done? ==> Inv(r.value)
    ensures r.Done? ==> KeepsCounters(s, r.value) && r.value.mode == Manipulate
  {
    match DirectionFromSelected(s, hits, plane)
    case Threw => Threw
    case Done(d) =>
      Done(s.(store := TurnObject(s.store, SelectedObject(s), s.lastFromDirection, d),
              lastFromDirection := d))
  }

  /** The Manipulate branch of OnPositionPerformed with exactly one finger down. */
  function ManipulateOneFinger(s: BuildState, p: Vec2, hits: seq<ARRaycastHit>, hit: PhysicsHit, plane: Option<TrackableId>): (r: BuildState)
    requires Inv(s) && s.mode == Manipulate && s.touchCount == 1
    ensures Inv(r)
    ensures KeepsCounters(s, r)
  {
    match Engage(s, p, hits, hit, plane)
    case Threw => s
    case Done(e) =>
      var moved := if e.lastPosition != Zero2 then MoveTo(e, hits, plane) else Done(e);
      match moved
      case Threw => e
      case Done(m) =>
        if m.lastFromDirection != Zero3 then
          match RotateTo(m, hits, plane)
          case Threw => m
          case Done(t) => t
        else m
  }

  /** OnPositionPerformed: ignored over UI and until the first press has ended; then
      dispatched on the mode. */
  function PositionPerformed(s: BuildState, p: Vec2, overUI: bool, hits: seq<ARRaycastHit>,
                             hit: PhysicsHit, plane: Option<TrackableId>): (r: BuildState)
    requires Inv(s)
    ensures Inv(r)
    ensures (overUI || s.ignoreTouch) ==> r == s
    ensures r.touchCount == s.touchCount && r.ignoreTouch == s.ignoreTouch && r.lastMagnitude == s.lastMagnitude
  {
    if overUI || s.ignoreTouch then s
    else if s.mode == Select then SelectAt(s, hit)
    else if s.mode == Create then CreateAt(s, hits, plane)
    else if s.mode == Manipulate && s.touchCount == 1 then ManipulateOneFinger(s, p, hits, hit, plane)
    else s
  }

  function Clamp(x: real, lo: real, hi: real): (r: real)
    requires lo <= hi
    ensures lo <= r <= hi
    ensures lo <= x <= hi ==> r == x
    ensures x < lo ==> r == lo
    ensures x > hi ==> r == hi
  {
    if x < lo then lo else if x > hi then hi else x
  }

  /** The new uniform scale after the two-finger distance went from `lastMagnitude` to
      `magnitude`: the additive change, clamped to [MinScale, MaxScale]. */
  function ScaledValue(current: real, lastMagnitude: real, magnitude: real): (r: real)
    ensures MinScale <= r <= MaxScale
    ensures var u := current + (magnitude - lastMagnitude) * Sensitivity;
              (MinScale <= u <= MaxScale ==> r == u) && (u < MinScale ==> r == MinScale) && (u > MaxScale ==> r == MaxScale)
  {
    Clamp(current + (magnitude - lastMagnitude) * Sensitivity, MinScale, MaxScale)
  }

  /** Scale: set the selected anchor's scale on every axis, then take `magnitude` as the baseline. */
  function ScaleBy(s: BuildState, magnitude: real): (r: BuildState)
    requires Inv(s) && s.mode == Manipulate && s.touchCount == 2
    ensures Inv(r)
  {
    var a := s.selected.value;
    var v := ScaledValue(s.store.anchors[a].localScale.x, s.lastMagnitude, magnitude);
    s.(store := SetAnchorScale(s.store, a, Vec3(v, v, v)), lastMagnitude := magnitude)
  }

  /** OnPositionSecondaryPerformed, with the two-finger distance given as `magnitude`:
      acts only with two fingers down, and always clears the drag position. */
  function SecondaryPositionPerformed(s: BuildState, magnitude: real, primaryHit: PhysicsHit, secondaryHit: PhysicsHit): (r: BuildState)
    requires Inv(s)
    ensures Inv(r)
    ensures s.touchCount == 2 ==> r.lastPosition == Zero2
    ensures s.touchCount != 2 ==> r == s
    ensures r.mode == s.mode && r.selected == s.selected && r.touchCount == s.touchCount
  {
    if s.touchCount == 2 then
      var t := s.(lastPosition := Zero2);
      if t.mode == Manipulate then
        if t.lastMagnitude == 0.0 then
          if IsSelected(t, primaryHit) || IsSelected(t, secondaryHit) then t.(lastMagnitude := magnitude) else t
        else ScaleBy(t, magnitude)
      else t
    else s
  }

  /** One input event as the input system delivers it, with the engine's answers to the
      queries the handler makes (UI picking, AR raycast, physics raycast, bound plane). */
  datatype TouchEvent =
    | PressStartedEvent(primaryOverUI: bool)
    | PressCanceledEvent
    | PrimaryPositionEvent(position: Vec2, overUI: bool, hits: seq<ARRaycastHit>, hit: PhysicsHit, plane: Option<TrackableId>)
    | SecondaryPositionEvent(magnitude: real, primaryHit: PhysicsHit, secondaryHit: PhysicsHit)

  function Step(s: BuildState, e: TouchEvent): (r: BuildState)
    requires Inv(s)
    ensures Inv(r)
  {
    match e
    case PressStartedEvent(overUI) => PressStarted(s, overUI)
    case PressCanceledEvent => PressCanceled(s)
    case PrimaryPositionEvent(p, overUI, hits, hit, plane) => PositionPerformed(s, p, overUI, hits, hit, plane)
    case SecondaryPositionEvent(m, h1, h2) => SecondaryPositionPerformed(s, m, h1, h2)
  }

  /** Any sequence of events keeps the invariant: the counter is never negative, the
      Move and Scale modes are never entered, the mode is Manipulate exactly when
      something is selected, drag and rotation are never both engaged, and every
      anchor's scale stays uniform and within [0.1, 2.0]. */
  function Run(s: BuildState, events: seq<TouchEvent>): (r: BuildState)
    requires Inv(s)
    ensures Inv(r)
    ensures r.touchCount >= 0
    ensures r.mode != Move && r.mode != Scale
    ensures r.mode == Manipulate <==> r.selected.Some?
    ensures r.lastPosition == Zero2 || r.lastFromDirection == Zero3
    ensures forall a :: a in r.store.anchors ==> UniformScaleInRange(r.store.anchors[a].localScale)
    decreases |events|
  {
    if events == [] then s else Run(Step(s, events[0]), events[1..])
  }
}
