/** Properties of the build controller's gesture machine that relate several events, or
    one event and the scene it leaves behind. */
module GestureProperties {
  import opened Engine
  import opened Raycast
  import opened Scene
  import opened Gesture
  import Selectable

  /** Until the first press ends, position events change nothing: only the press
      counter moves. */
  lemma {:induction false} IgnoredUntilFirstRelease(s: BuildState, events: seq<TouchEvent>)
    requires Inv(s) && s.ignoreTouch && s.mode != Manipulate
    requires forall i :: 0 <= i < |events| ==> !events[i].PressCanceledEvent?
    ensures Run(s, events) == s.(touchCount := Run(s, events).touchCount)
    decreases |events|
  {
    if events != [] {
      var t := Step(s, events[0]);
      assert t == s.(touchCount := t.touchCount);
      assert forall i :: 0 <= i < |events[1..]| ==> !events[1..][i].PressCanceledEvent? by {
        forall i | 0 <= i < |events[1..]| ensures !events[1..][i].PressCanceledEvent? {
          assert events[1..][i] == events[i + 1];
        }
      }
      IgnoredUntilFirstRelease(t, events[1..]);
    }
  }

  /** Create: the first hit on the bound plane places exactly one new anchor there, owning
      one new object with the prefab's rotation and unit scale; that anchor is selected
      and the mode becomes Manipulate. */
  lemma CreatePlacesOne(s: BuildState, p: Vec2, hits: seq<ARRaycastHit>, hit: PhysicsHit, plane: Option<TrackableId>, pose: Pose)
    requires Inv(s) && s.mode == Create && !s.ignoreTouch
    requires BoundSurfaceHit(hits, plane) == SurfaceHit(pose)
    ensures var r := PositionPerformed(s, p, false, hits, hit, plane); var n := s.store.nextId;
      && plane.Some?
      && n !in s.store.anchors && n + 1 !in s.store.objects
      && r.mode == Manipulate && r.selected == Some(n)
      && r.store.anchors == s.store.anchors[n := Anchor(plane.value, pose, One3, [n + 1])]
      && r.store.objects == s.store.objects[n + 1 := PlacedObject(n, PrefabRotation, s.createPrefab)]
      && r.store.effects == s.store.effects + [Attached(n, pose), Spawned(n + 1, n)]
  {
  }

  /** Create without a hit on the bound plane (a miss, or hits with no bound plane) is a
      no-op. */
  lemma CreateMissIsNoOp(s: BuildState, p: Vec2, hits: seq<ARRaycastHit>, hit: PhysicsHit, plane: Option<TrackableId>)
    requires Inv(s) && s.mode == Create
    requires !BoundSurfaceHit(hits, plane).SurfaceHit?
    ensures PositionPerformed(s, p, false, hits, hit, plane) == s
  {
  }

  /** Select: a ray that strikes a placed object's body selects the object's anchor, shows
      the object's children and enters Manipulate; that object is then the selected one,
      and no anchor and no other object changes. */
  lemma SelectPicksAnchor(s: BuildState, p: Vec2, hits: seq<ARRaycastHit>, o: ObjectId, plane: Option<TrackableId>)
    requires Inv(s) && s.mode == Select && !s.ignoreTouch
    requires o in s.store.objects
    ensures var r := PositionPerformed(s, p, false, hits, PhysicsHit(ObjectTransform(o)), plane);
      && r.mode == Manipulate && r.selected == Some(s.store.objects[o].parent)
      && SelectedObject(r) == o
      && r.store.anchors == s.store.anchors
      && r.store.objects.Keys == s.store.objects.Keys
      && r.store.objects[o].childActive == Selectable.SetAllActive(s.store.objects[o].childActive, true)
      && r.store.objects[o].parent == s.store.objects[o].parent
      && r.store.objects[o].rotation == s.store.objects[o].rotation
      && (forall q :: q in s.store.objects && q != o ==> r.store.objects[q] == s.store.objects[q])
  {
  }

  /** Select: a miss, or a ray that strikes anything but a placed object's body (a gizmo,
      a transform whose parent is not an anchor), changes nothing. */
  lemma SelectMissNoOp(s: BuildState, p: Vec2, hits: seq<ARRaycastHit>, hit: PhysicsHit, plane: Option<TrackableId>)
    requires Inv(s) && s.mode == Select
    requires !(hit.PhysicsHit? && hit.target.ObjectTransform? && hit.target.obj in s.store.objects)
    ensures PositionPerformed(s, p, false, hits, hit, plane) == s
  {
  }

  /** In Manipulate, a fresh one-finger touch that strikes neither the selected object's
      body nor its gizmo hides the object's children, drops the selection and returns to
      Select; nothing is moved or rotated. */
  lemma MissDeselects(s: BuildState, p: Vec2, hits: seq<ARRaycastHit>, hit: PhysicsHit, plane: Option<TrackableId>)
    requires Inv(s) && s.mode == Manipulate && s.touchCount == 1 && !s.ignoreTouch
    requires s.lastPosition == Zero2 && s.lastFromDirection == Zero3
    requires !IsSelected(s, hit) && !IsRotateGizmoSelected(s, hit)
    ensures var r := PositionPerformed(s, p, false, hits, hit, plane); var o := SelectedObject(s);
      && r.mode == Select && r.selected == None
      && r.store.anchors == s.store.anchors
      && r.store.objects.Keys == s.store.objects.Keys
      && r.store.objects[o].childActive == Selectable.SetAllActive(s.store.objects[o].childActive, false)
      && r.store.objects[o].parent == s.store.objects[o].parent
      && r.store.objects[o].rotation == s.store.objects[o].rotation
      && (forall q :: q in s.store.objects && q != o ==> r.store.objects[q] == s.store.objects[q])
  {
  }

  /** Deselecting happens once: repeating the same touch, when it strikes neither the
      gizmo nor any object's body, finds nothing to select and changes nothing. */
  lemma DeselectThenNoOp(s: BuildState, p: Vec2, hits: seq<ARRaycastHit>, hit: PhysicsHit, plane: Option<TrackableId>)
    requires Inv(s) && s.mode == Manipulate && s.touchCount == 1 && !s.ignoreTouch
    requires s.lastPosition == Zero2 && s.lastFromDirection == Zero3
    requires !(hit.PhysicsHit? && hit.target.ObjectTransform?) && !IsRotateGizmoSelected(s, hit)
    ensures var r := PositionPerformed(s, p, false, hits, hit, plane);
      && r.mode == Select && r.selected == None
      && PositionPerformed(r, p, false, hits, hit, plane) == r
  {
  }

  /** A fresh one-finger touch on the selected object's body starts a drag at the touch
      point, unless that point is exactly the screen origin: the zero sentinel then reads
      as "no drag", and the object is never moved. */
  lemma DragFromOriginNeverStarts(s: BuildState, hits: seq<ARRaycastHit>, hit: PhysicsHit, plane: Option<TrackableId>)
    requires Inv(s) && s.mode == Manipulate && s.touchCount == 1 && !s.ignoreTouch
    requires s.lastPosition == Zero2 && s.lastFromDirection == Zero3
    requires IsSelected(s, hit)
    ensures PositionPerformed(s, Zero2, false, hits, hit, plane) == s
  {
  }

  /** A fresh one-finger touch on the selected object's body away from the screen origin
      starts a drag at the touch point, and the same event already moves the object:
      with a hit on the bound plane the object is re-anchored there and the new anchor
      selected; otherwise only the drag position is recorded. */
  lemma BodyHitStartsDrag(s: BuildState, p: Vec2, hits: seq<ARRaycastHit>, hit: PhysicsHit, plane: Option<TrackableId>)
    requires Inv(s) && s.mode == Manipulate && s.touchCount == 1 && !s.ignoreTouch
    requires s.lastPosition == Zero2 && s.lastFromDirection == Zero3
    requires IsSelected(s, hit) && p != Zero2
    ensures var r := PositionPerformed(s, p, false, hits, hit, plane); var found := BoundSurfaceHit(hits, plane);
      && r.lastPosition == p && r.lastFromDirection == Zero3 && r.mode == Manipulate
      && (found.SurfaceHit? ==>
            plane.Some? && r.selected == Some(s.store.nextId)
            && r.store == Reanchor(s.store, s.selected.value, plane.value, found.pose))
      && (!found.SurfaceHit? ==> r == s.(lastPosition := p))
  {
    var e := s.(lastPosition := p);
    assert Engage(s, p, hits, hit, plane) == Done(e);
    match BoundSurfaceHit(hits, plane)
    case SurfaceHit(pose) =>
      var t := e.(store := Reanchor(e.store, e.selected.value, plane.value, pose), selected := Some(e.store.nextId));
      assert MoveTo(e, hits, plane) == Done(t);
      assert PositionPerformed(s, p, false, hits, hit, plane) == t;
    case PlaneMissing =>
      assert MoveTo(e, hits, plane) == Threw;
    case NoSurfaceHit =>
      assert MoveTo(e, hits, plane) == Done(e);
  }

  /** A fresh one-finger touch on the selected object's gizmo records the direction from
      the selected anchor to the first hit on the bound plane. The same event then turns
      the object by the step from that direction to itself; with no hit the direction is
      zero and nothing turns; with the bound plane missing the event changes nothing. */
  lemma GizmoHitStartsRotation(s: BuildState, p: Vec2, hits: seq<ARRaycastHit>, hit: PhysicsHit, plane: Option<TrackableId>)
    requires Inv(s) && s.mode == Manipulate && s.touchCount == 1 && !s.ignoreTouch
    requires s.lastPosition == Zero2 && s.lastFromDirection == Zero3
    requires IsRotateGizmoSelected(s, hit)
    ensures var r := PositionPerformed(s, p, false, hits, hit, plane);
      var dir := DirectionFromSelected(s, hits, plane); var o := SelectedObject(s);
      var frame := s.store.anchors[s.selected.value].pose.rotation;
      && (dir.Threw? ==> r == s)
      && (dir.Done? ==> && r.lastFromDirection == dir.value && r.lastPosition == Zero2
                        && r.mode == Manipulate && r.selected == s.selected
                        && r.store.anchors == s.store.anchors
                        && (dir.value == Zero3 ==> r.store == s.store)
                        && (dir.value != Zero3 ==>
                              r.store.objects == s.store.objects[o := s.store.objects[o].(rotation := FromTo(dir.value, dir.value, frame, s.store.objects[o].rotation))]))
  {
    assert !IsSelected(s, hit);
    match DirectionFromSelected(s, hits, plane)
    case Threw =>
      assert Engage(s, p, hits, hit, plane) == Threw;
    case Done(d) =>
      var e := s.(lastFromDirection := d);
      assert Engage(s, p, hits, hit, plane) == Done(e);
      assert DirectionFromSelected(e, hits, plane) == Done(d);
  }

  /** A drag in progress re-anchors on every hit on the bound plane: a new anchor is
      attached at the hit pose, the selected object is reparented to it, the new anchor
      takes the old anchor's scale, the old anchor is destroyed (in that order) and the
      new anchor is selected. The object then has exactly one anchor, the new one. */
  lemma MoveReanchors(s: BuildState, p: Vec2, hits: seq<ARRaycastHit>, hit: PhysicsHit, plane: Option<TrackableId>, pose: Pose)
    requires Inv(s) && s.mode == Manipulate && s.touchCount == 1 && !s.ignoreTouch
    requires s.lastPosition != Zero2
    requires BoundSurfaceHit(hits, plane) == SurfaceHit(pose)
    ensures var r := PositionPerformed(s, p, false, hits, hit, plane);
      var a := s.selected.value; var n := s.store.nextId; var o := SelectedObject(s);
      && plane.Some?
      && n !in s.store.anchors
      && r.mode == Manipulate && r.selected == Some(n)
      && a !in r.store.anchors
      && r.store.anchors[n] == Anchor(plane.value, pose, s.store.anchors[a].localScale, [o])
      && r.store.objects[o] == s.store.objects[o].(parent := n)
      && (forall b :: b in r.store.anchors && b != n ==> b in s.store.anchors && r.store.anchors[b] == s.store.anchors[b])
      && (forall q :: q in r.store.objects ==> q in s.store.objects && (q != o ==> r.store.objects[q] == s.store.objects[q]))
      && (forall b :: b in r.store.anchors && o in r.store.anchors[b].children ==> b == n)
      && r.store.effects == s.store.effects + [Attached(n, pose), Reparented(o, a, n), ScaleCopied(a, n), Destroyed(a)]
      && r.lastPosition == s.lastPosition
  {
    var n := s.store.nextId;
    var o := SelectedObject(s);
    ReanchorFresh(s.store, s.selected.value);
    assert Engage(s, p, hits, hit, plane) == Done(s);
    var t := s.(store := Reanchor(s.store, s.selected.value, plane.value, pose), selected := Some(n));
    assert MoveTo(s, hits, plane) == Done(t);
    assert t.lastFromDirection == Zero3;
    assert PositionPerformed(s, p, false, hits, hit, plane) == t;
    ReanchorFrame(s.store, s.selected.value, plane.value, pose);
  }

  /** A drag whose touch finds no hit on the bound plane changes nothing. */
  lemma MoveMissIsNoOp(s: BuildState, p: Vec2, hits: seq<ARRaycastHit>, hit: PhysicsHit, plane: Option<TrackableId>)
    requires Inv(s) && s.mode == Manipulate && s.touchCount == 1 && !s.ignoreTouch
    requires s.lastPosition != Zero2
    requires !BoundSurfaceHit(hits, plane).SurfaceHit?
    ensures PositionPerformed(s, p, false, hits, hit, plane) == s
  {
  }

  /** Rotation is incremental: two rotation steps compose the two shortest-arc steps onto
      the object's orientation, without resetting it. */
  lemma RotateIsIncremental(s: BuildState, hits1: seq<ARRaycastHit>, hits2: seq<ARRaycastHit>, plane: Option<TrackableId>)
    requires Inv(s) && s.mode == Manipulate && s.lastPosition == Zero2
    requires RotateTo(s, hits1, plane).Done?
    requires RotateTo(RotateTo(s, hits1, plane).value, hits2, plane).Done?
    ensures var o := SelectedObject(s);
      var d1 := DirectionFromSelected(s, hits1, plane).value;
      var d2 := DirectionFromSelected(s, hits2, plane).value;
      var t := RotateTo(RotateTo(s, hits1, plane).value, hits2, plane).value;
      var frame := s.store.anchors[s.selected.value].pose.rotation;
      && o in t.store.objects
      && t.store.objects[o].rotation == FromTo(d1, d2, frame, FromTo(s.lastFromDirection, d1, frame, s.store.objects[o].rotation))
      && t.lastFromDirection == d2
  {
  }

  /** A rotation under way: with a rotation direction recorded, a one-finger touch turns the
      selected object by the step from the recorded direction to the new one, in its
      anchor's frame, and records the new direction; no anchor changes. */
  lemma RotateInProgress(s: BuildState, p: Vec2, hits: seq<ARRaycastHit>, hit: PhysicsHit, plane: Option<TrackableId>)
    requires Inv(s) && s.mode == Manipulate && s.touchCount == 1 && !s.ignoreTouch
    requires s.lastFromDirection != Zero3
    requires DirectionFromSelected(s, hits, plane).Done?
    ensures var r := PositionPerformed(s, p, false, hits, hit, plane);
      var d := DirectionFromSelected(s, hits, plane).value; var o := SelectedObject(s);
      var frame := s.store.anchors[s.selected.value].pose.rotation;
      && r.lastFromDirection == d && r.lastPosition == Zero2
      && r.mode == Manipulate && r.selected == s.selected
      && r.store.objects == s.store.objects[o := s.store.objects[o].(rotation := FromTo(s.lastFromDirection, d, frame, s.store.objects[o].rotation))]
      && r.store.anchors == s.store.anchors
  {
  }

  /** No anchor changed, and no object was added, removed, reparented or rotated. */
  ghost predicate SameLayout(s: BuildState, r: BuildState) {
    && r.store.anchors == s.store.anchors
    && r.store.objects.Keys == s.store.objects.Keys
    && (forall q :: q in s.store.objects ==> r.store.objects[q].rotation == s.store.objects[q].rotation
                                             && r.store.objects[q].parent == s.store.objects[q].parent)
    && r.lastFromDirection == s.lastFromDirection
  }

  /** With the bound plane missing and AR hits present, the exception leaves every anchor
      and every rotation as it was. */
  lemma PlaneMissingMovesNothing(s: BuildState, p: Vec2, hits: seq<ARRaycastHit>, hit: PhysicsHit, plane: Option<TrackableId>)
    requires Inv(s)
    requires BoundSurfaceHit(hits, plane) == PlaneMissing
    ensures SameLayout(s, PositionPerformed(s, p, false, hits, hit, plane))
  {
    if !s.ignoreTouch && s.mode == Manipulate && s.touchCount == 1 {
      PlaneMissingManipulate(s, p, hits, hit, plane);
    } else if !s.ignoreTouch && s.mode == Select {
      assert SameLayout(s, SelectAt(s, hit));
    } else {
      assert SameLayout(s, s);
    }
  }

  lemma PlaneMissingManipulate(s: BuildState, p: Vec2, hits: seq<ARRaycastHit>, hit: PhysicsHit, plane: Option<TrackableId>)
    requires Inv(s) && s.mode == Manipulate && s.touchCount == 1
    requires BoundSurfaceHit(hits, plane) == PlaneMissing
    ensures SameLayout(s, ManipulateOneFinger(s, p, hits, hit, plane))
  {
    PlaneMissingEngage(s, p, hits, hit, plane);
    match Engage(s, p, hits, hit, plane)
    case Threw =>
    case Done(e) =>
      if e.lastPosition != Zero2 {
        assert MoveTo(e, hits, plane) == Threw;
      } else if e.lastFromDirection != Zero3 {
        assert RotateTo(e, hits, plane) == Threw;
      }
  }

  /** The gesture start with the bound plane missing can only record a drag position or
      deselect: the rotation direction cannot be computed. */
  lemma PlaneMissingEngage(s: BuildState, p: Vec2, hits: seq<ARRaycastHit>, hit: PhysicsHit, plane: Option<TrackableId>)
    requires Inv(s) && s.mode == Manipulate && s.touchCount == 1
    requires BoundSurfaceHit(hits, plane) == PlaneMissing
    ensures Engage(s, p, hits, hit, plane).Done? ==> SameLayout(s, Engage(s, p, hits, hit, plane).value)
  {
    if s.lastPosition == Zero2 && s.lastFromDirection == Zero3 {
      if IsSelected(s, hit) {
        assert Engage(s, p, hits, hit, plane) == Done(s.(lastPosition := p));
      } else if IsRotateGizmoSelected(s, hit) {
        assert DirectionFromSelected(s, hits, plane) == Threw;
      } else {
        var d := Deselect(s);
        assert Engage(s, p, hits, hit, plane) == Done(d);
        assert SameLayout(s, d);
      }
    } else {
      assert SameLayout(s, s);
    }
  }

  /** The second finger, whatever it hits, never changes the scene unless an object is
      selected, and never sets a scale baseline; it only clears the drag position. */
  lemma {:induction false} NoScaleWithoutSelection(s: BuildState, events: seq<TouchEvent>)
    requires Inv(s) && s.mode != Manipulate
    requires forall i :: 0 <= i < |events| ==> events[i].SecondaryPositionEvent?
    ensures Run(s, events) == s
    decreases |events|
  {
    if events != [] {
      assert Step(s, events[0]) == s;
      assert forall i :: 0 <= i < |events[1..]| ==> events[1..][i].SecondaryPositionEvent? by {
        forall i | 0 <= i < |events[1..]| ensures events[1..][i].SecondaryPositionEvent? {
          assert events[1..][i] == events[i + 1];
        }
      }
      NoScaleWithoutSelection(s, events[1..]);
    }
  }

  /** A two-finger event whose rays from both fingers miss the selected object's body. */
  ghost predicate MissesBody(s: BuildState, e: TouchEvent)
    requires Inv(s) && s.selected.Some?
  {
    e.SecondaryPositionEvent? && !IsSelected(s, e.primaryHit) && !IsSelected(s, e.secondaryHit)
  }

  /** Scale waits for a body hit: while every two-finger event misses the selected object's
      body, no baseline is recorded and nothing but the drag position changes, however far
      the fingers move. The body test is repeated on every such event, so a later event
      that hits the body does start scaling (`ScaleEngagesLate`). */
  lemma {:induction false} ScaleNeedsBodyHit(s: BuildState, events: seq<TouchEvent>)
    requires Inv(s) && s.mode == Manipulate && s.touchCount == 2 && s.lastMagnitude == 0.0
    requires forall i :: 0 <= i < |events| ==> MissesBody(s, events[i])
    ensures Run(s, events) == if events == [] then s else s.(lastPosition := Zero2)
    decreases |events|
  {
    if events != [] {
      var t := s.(lastPosition := Zero2);
      assert MissesBody(s, events[0]);
      assert Step(s, events[0]) == t;
      assert SelectedObject(t) == SelectedObject(s);
      assert forall i :: 0 <= i < |events[1..]| ==> MissesBody(t, events[1..][i]) by {
        forall i | 0 <= i < |events[1..]| ensures MissesBody(t, events[1..][i]) {
          assert events[1..][i] == events[i + 1];
          assert MissesBody(s, events[i + 1]);
        }
      }
      ScaleNeedsBodyHit(t, events[1..]);
    }
  }

  /** The body test is repeated while there is no baseline: after a two-finger event that
      misses the body, a later one that hits it records the distance as the baseline, and
      the next one scales the selected anchor from there. */
  lemma ScaleEngagesLate(s: BuildState, m1: real, h1: PhysicsHit, h2: PhysicsHit,
                         m2: real, k1: PhysicsHit, k2: PhysicsHit, m3: real, j1: PhysicsHit, j2: PhysicsHit)
    requires Inv(s) && s.mode == Manipulate && s.touchCount == 2 && s.lastMagnitude == 0.0
    requires !IsSelected(s, h1) && !IsSelected(s, h2)
    requires IsSelected(s, k1) || IsSelected(s, k2)
    requires m2 != 0.0
    ensures var r1 := SecondaryPositionPerformed(s, m1, h1, h2);
      var r2 := SecondaryPositionPerformed(r1, m2, k1, k2);
      var r3 := SecondaryPositionPerformed(r2, m3, j1, j2);
      var a := s.selected.value;
      var v := ScaledValue(s.store.anchors[a].localScale.x, m2, m3);
      && r1.lastMagnitude == 0.0
      && r2.lastMagnitude == m2
      && r3.store.anchors == s.store.anchors[a := s.store.anchors[a].(localScale := Vec3(v, v, v))]
      && r3.lastMagnitude == m3
  {
    var r1 := SecondaryPositionPerformed(s, m1, h1, h2);
    assert r1 == s.(lastPosition := Zero2);
    assert SelectedObject(r1) == SelectedObject(s);
    ScaleBaselineOnBodyHit(r1, m2, k1, k2);
    var r2 := SecondaryPositionPerformed(r1, m2, k1, k2);
    ScaleStep(r2, m3, j1, j2);
  }

  /** With no scale baseline yet, a two-finger event whose ray from either finger strikes
      the selected object's body takes the current distance as the baseline and clears
      the drag position; nothing else changes. */
  lemma ScaleBaselineOnBodyHit(s: BuildState, m: real, h1: PhysicsHit, h2: PhysicsHit)
    requires Inv(s) && s.mode == Manipulate && s.touchCount == 2 && s.lastMagnitude == 0.0
    requires IsSelected(s, h1) || IsSelected(s, h2)
    ensures SecondaryPositionPerformed(s, m, h1, h2) == s.(lastPosition := Zero2, lastMagnitude := m)
  {
  }

  /** A scale step sets the selected anchor's scale to the clamped additive change on all
      three axes and takes the new distance as the baseline; nothing else changes. */
  lemma ScaleStep(s: BuildState, magnitude: real, h1: PhysicsHit, h2: PhysicsHit)
    requires Inv(s) && s.mode == Manipulate && s.touchCount == 2 && s.lastMagnitude != 0.0
    ensures var r := SecondaryPositionPerformed(s, magnitude, h1, h2); var a := s.selected.value;
      var v := ScaledValue(s.store.anchors[a].localScale.x, s.lastMagnitude, magnitude);
      && MinScale <= v <= MaxScale
      && r == s.(store := s.store.(anchors := s.store.anchors[a := s.store.anchors[a].(localScale := Vec3(v, v, v))]),
                 lastMagnitude := magnitude, lastPosition := Zero2)
  {
  }

  /** Two fingers land on the selected object's body 100 pixels apart and move to 150
      pixels apart: an object at unit scale ends at scale 1.05 on every axis. */
  lemma PinchScenario(s: BuildState, h1: PhysicsHit, h2: PhysicsHit, k1: PhysicsHit, k2: PhysicsHit)
    requires Inv(s) && s.mode == Manipulate && s.touchCount == 2 && s.lastMagnitude == 0.0
    requires s.store.anchors[s.selected.value].localScale == One3
    requires IsSelected(s, h1)
    ensures var r := SecondaryPositionPerformed(SecondaryPositionPerformed(s, 100.0, h1, h2), 150.0, k1, k2);
      r.store.anchors[s.selected.value].localScale == Vec3(1.05, 1.05, 1.05) && r.lastMagnitude == 150.0
  {
    var r1 := SecondaryPositionPerformed(s, 100.0, h1, h2);
    assert r1.lastMagnitude == 100.0;
    assert ScaledValue(1.0, 100.0, 150.0) == 1.05;
  }

  /** From the controller's initial state, a first press and release, then a press and a
      touch whose AR raycast meets the bound plane at `pose`: exactly one anchor exists, at
      `pose`, with unit scale, owning one object with the prefab's rotation; it is selected
      and the mode is Manipulate. */
  lemma CreateScenario(prefab: seq<bool>, p: Vec2, plane: TrackableId, pose: Pose, hit: PhysicsHit)
    requires |prefab| > GizmoIndex
    ensures var r := Run(Initial(prefab), [PressStartedEvent(false), PressCanceledEvent, PressStartedEvent(false),
                                           PrimaryPositionEvent(p, false, [ARRaycastHit(plane, pose)], hit, Some(plane))]);
      && r.mode == Manipulate && r.selected == Some(0) && r.touchCount == 1
      && r.store.anchors == map[0 := Anchor(plane, pose, One3, [1])]
      && r.store.objects == map[1 := PlacedObject(0, PrefabRotation, prefab)]
  {
    var e3 := PrimaryPositionEvent(p, false, [ARRaycastHit(plane, pose)], hit, Some(plane));
    var events := [PressStartedEvent(false), PressCanceledEvent, PressStartedEvent(false), e3];
    var s0 := Initial(prefab);
    var s1 := Step(s0, PressStartedEvent(false));
    var s2 := Step(s1, PressCanceledEvent);
    var s3 := Step(s2, PressStartedEvent(false));
    assert s3 == s0.(touchCount := 1, ignoreTouch := false);
    assert BoundSurfaceHit([ARRaycastHit(plane, pose)], Some(plane)) == SurfaceHit(pose);
    assert Run(s0, events) == Run(s1, [PressCanceledEvent, PressStartedEvent(false), e3]) by {
      assert events[1..] == [PressCanceledEvent, PressStartedEvent(false), e3];
    }
    assert Run(s1, [PressCanceledEvent, PressStartedEvent(false), e3]) == Run(s2, [PressStartedEvent(false), e3]) by {
      assert [PressCanceledEvent, PressStartedEvent(false), e3][1..] == [PressStartedEvent(false), e3];
    }
    assert Run(s2, [PressStartedEvent(false), e3]) == Run(s3, [e3]) by {
      assert [PressStartedEvent(false), e3][1..] == [e3];
    }
    assert Run(s3, [e3]) == Step(s3, e3) by {
      assert [e3][1..] == [];
    }
  }
}
