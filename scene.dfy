/** The part of the scene graph the build controller works on: AR anchors, the
    placed objects parented to them, and the log of anchor-service and spawner
    calls in the order they were made. The engine's `AttachAnchor`,
    `Instantiate`, `Transform.SetParent` and `Destroy` are the functions below. */
module Scene {
  import opened Engine
  import Selectable

  type AnchorId = nat
  type ObjectId = nat

  /** Bounds of the uniform scale of an anchor. */
  const MinScale: real := 0.1
  const MaxScale: real := 2.0

  /** Child index of the rotation gizmo under a placed object. */
  const GizmoIndex: nat := 1

  /** An object's local rotation (relative to its parent anchor), as the history of
      from-to steps taken since it was spawned with the prefab's own rotation. A step
      turns the WORLD rotation, which is the parent anchor's pose rotation `frame`
      times the local one, so `FromTo(u, v, frame, q)` is the local rotation
      `Inverse(frame) * SetFromToRotation(u, v) * frame * q`. Reparenting with the local
      transform kept keeps this value, so the object then turns with its new anchor. */
  datatype Rotation = PrefabRotation | FromTo(from: Vec3, to: Vec3, frame: Quaternion, prior: Rotation)

  /** An ARAnchor: the plane it was attached to, its pose, its transform's local scale
      and its transform's children. */
  datatype Anchor = Anchor(plane: TrackableId, pose: Pose, localScale: Vec3, children: seq<ObjectId>)

  /** A placed object (an instance of the create prefab): its parent transform, its
      rotation and the active flags of its own children. `childActive` is the value the
      `SelectableObject.Select` loop computes (`Selectable.SelectableObject.Select` is
      proved to leave exactly `Selectable.SetAllActive` of the old flags). */
  datatype PlacedObject = PlacedObject(parent: AnchorId, rotation: Rotation, childActive: seq<bool>)

  /** The externally visible calls, in the order they were made. */
  datatype Effect =
    | Attached(anchor: AnchorId, pose: Pose)
    | Spawned(obj: ObjectId, parent: AnchorId)
    | Reparented(obj: ObjectId, from: AnchorId, to: AnchorId)
    | ScaleCopied(from: AnchorId, to: AnchorId)
    | Destroyed(anchor: AnchorId)

  /** Anchors and objects by identity; `nextId` is the next unused identity. */
  datatype Store = Store(anchors: map<AnchorId, Anchor>, objects: map<ObjectId, PlacedObject>,
                         nextId: nat, effects: seq<Effect>)

  const EmptyStore: Store := Store(map[], map[], 0, [])

  /** All three axes equal, within [MinScale, MaxScale]. */
  ghost predicate UniformScaleInRange(v: Vec3) {
    v.x == v.y && v.y == v.z && MinScale <= v.x <= MaxScale
  }

  ghost predicate AnchorOk(st: Store, a: AnchorId)
    requires a in st.anchors
  {
    var an := st.anchors[a];
    && a < st.nextId
    && UniformScaleInRange(an.localScale)
    && |an.children| == 1
    && an.children[0] in st.objects
    && st.objects[an.children[0]].parent == a
  }

  ghost predicate ObjectOk(st: Store, o: ObjectId)
    requires o in st.objects
  {
    var ob := st.objects[o];
    && o < st.nextId
    && ob.parent in st.anchors
    && st.anchors[ob.parent].children == [o]
    && |ob.childActive| > GizmoIndex
  }

  /** Every anchor owns exactly one placed object and every placed object has exactly
      one live anchor, which owns it; every anchor's scale is uniform and in range. */
  ghost predicate Valid(st: Store) {
    && (forall a :: a in st.anchors ==> AnchorOk(st, a))
    && (forall o :: o in st.objects ==> ObjectOk(st, o))
  }

  /** The children of a transform with `x` taken out. */
  function Without(s: seq<ObjectId>, x: ObjectId): (r: seq<ObjectId>)
    ensures forall y :: y in r <==> y in s && y != x
    ensures |r| <= |s|
  {
    if s == [] then [] else (if s[0] == x then [] else [s[0]]) + Without(s[1..], x)
  }

  /** `ARAnchorManager.AttachAnchor(plane, pose)`: a fresh anchor with no children and unit scale. */
  function AttachAnchor(st: Store, plane: TrackableId, pose: Pose): (r: Store)
    ensures r.anchors == st.anchors[st.nextId := Anchor(plane, pose, One3, [])]
    ensures r.objects == st.objects && r.nextId == st.nextId + 1
    ensures r.effects == st.effects + [Attached(st.nextId, pose)]
  {
    var a := st.nextId;
    st.(anchors := st.anchors[a := Anchor(plane, pose, One3, [])],
        nextId := a + 1,
        effects := st.effects + [Attached(a, pose)])
  }

  /** `Instantiate(prefab, parent)`: a fresh object, appended to the parent's children. */
  function Instantiate(st: Store, parent: AnchorId, prefab: seq<bool>): (r: Store)
    requires parent in st.anchors
    ensures r.objects == st.objects[st.nextId := PlacedObject(parent, PrefabRotation, prefab)]
    ensures r.anchors == st.anchors[parent := st.anchors[parent].(children := st.anchors[parent].children + [st.nextId])]
    ensures r.nextId == st.nextId + 1 && r.effects == st.effects + [Spawned(st.nextId, parent)]
  {
    var o := st.nextId;
    var an := st.anchors[parent];
    st.(objects := st.objects[o := PlacedObject(parent, PrefabRotation, prefab)],
        anchors := st.anchors[parent := an.(children := an.children + [o])],
        nextId := o + 1,
        effects := st.effects + [Spawned(o, parent)])
  }

  /** `obj.SetParent(to, false)`: moves the object from its parent's children to the end
      of `to`'s, keeping its local transform (rotation included). */
  function SetParent(st: Store, o: ObjectId, to: AnchorId): (r: Store)
    requires o in st.objects && st.objects[o].parent in st.anchors && to in st.anchors
    requires to != st.objects[o].parent
    ensures var from := st.objects[o].parent;
      && r.anchors == st.anchors[from := st.anchors[from].(children := Without(st.anchors[from].children, o))]
                                [to := st.anchors[to].(children := st.anchors[to].children + [o])]
      && r.objects == st.objects[o := st.objects[o].(parent := to)]
      && r.nextId == st.nextId && r.effects == st.effects + [Reparented(o, from, to)]
  {
    var from := st.objects[o].parent;
    var fa := st.anchors[from];
    var ta := st.anchors[to];
    st.(anchors := st.anchors[from := fa.(children := Without(fa.children, o))][to := ta.(children := ta.children + [o])],
        objects := st.objects[o := st.objects[o].(parent := to)],
        effects := st.effects + [Reparented(o, from, to)])
  }

  /** `to.transform.localScale = from.transform.localScale`. */
  function CopyScale(st: Store, from: AnchorId, to: AnchorId): (r: Store)
    requires from in st.anchors && to in st.anchors
    ensures r.anchors == st.anchors[to := st.anchors[to].(localScale := st.anchors[from].localScale)]
    ensures r.objects == st.objects && r.nextId == st.nextId && r.effects == st.effects + [ScaleCopied(from, to)]
  {
    st.(anchors := st.anchors[to := st.anchors[to].(localScale := st.anchors[from].localScale)],
        effects := st.effects + [ScaleCopied(from, to)])
  }

  /** `Destroy(anchor)`. The anchor service may be asked to do this only once the anchor's
      child has been reparented away, so a destroyed anchor never takes an object with it. */
  function DestroyAnchor(st: Store, a: AnchorId): (r: Store)
    requires a in st.anchors && st.anchors[a].children == []
    ensures r.anchors == st.anchors - {a}
    ensures r.objects == st.objects && r.nextId == st.nextId && r.effects == st.effects + [Destroyed(a)]
  {
    st.(anchors := st.anchors - {a}, effects := st.effects + [Destroyed(a)])
  }

  /** `anchor.transform.localScale = v`. */
  function SetAnchorScale(st: Store, a: AnchorId, v: Vec3): (r: Store)
    requires a in st.anchors
    requires Valid(st) && UniformScaleInRange(v)
    ensures Valid(r)
    ensures r.anchors == st.anchors[a := st.anchors[a].(localScale := v)]
    ensures r.objects == st.objects && r.nextId == st.nextId && r.effects == st.effects
  {
    st.(anchors := st.anchors[a := st.anchors[a].(localScale := v)])
  }

  /** `obj.rotation = SetFromToRotation(from, to) * obj.rotation`: a step on the world
      rotation, taken in the frame of the object's anchor. */
  function TurnObject(st: Store, o: ObjectId, from: Vec3, to: Vec3): (r: Store)
    requires o in st.objects
    requires Valid(st)
    ensures Valid(r)
    ensures var frame := st.anchors[st.objects[o].parent].pose.rotation;
      r.objects == st.objects[o := st.objects[o].(rotation := FromTo(from, to, frame, st.objects[o].rotation))]
    ensures r.anchors == st.anchors && r.nextId == st.nextId && r.effects == st.effects
  {
    var frame := st.anchors[st.objects[o].parent].pose.rotation;
    st.(objects := st.objects[o := st.objects[o].(rotation := FromTo(from, to, frame, st.objects[o].rotation))])
  }

  /** `obj.GetComponent<SelectableObject>().Select(active)`. */
  function SetChildrenActive(st: Store, o: ObjectId, active: bool): (r: Store)
    requires o in st.objects
    requires Valid(st)
    ensures Valid(r)
    ensures r.objects.Keys == st.objects.Keys
    ensures r.objects[o].childActive == Selectable.SetAllActive(st.objects[o].childActive, active)
    ensures r.objects[o].parent == st.objects[o].parent && r.objects[o].rotation == st.objects[o].rotation
    ensures forall p :: p in st.objects && p != o ==> r.objects[p] == st.objects[p]
    ensures r.anchors == st.anchors && r.nextId == st.nextId && r.effects == st.effects
  {
    var ob := st.objects[o];
    st.(objects := st.objects[o := ob.(childActive := Selectable.SetAllActive(ob.childActive, active))])
  }

  /** Create: attach an anchor at `pose` and spawn the prefab as its only child. */
  function Place(st: Store, plane: TrackableId, pose: Pose, prefab: seq<bool>): (r: Store)
    requires Valid(st) && |prefab| > GizmoIndex
    ensures Valid(r)
    ensures r.anchors == st.anchors[st.nextId := Anchor(plane, pose, One3, [st.nextId + 1])]
    ensures r.objects == st.objects[st.nextId + 1 := PlacedObject(st.nextId, PrefabRotation, prefab)]
    ensures st.nextId !in st.anchors && st.nextId + 1 !in st.objects
    ensures r.nextId == st.nextId + 2
    ensures r.effects == st.effects + [Attached(st.nextId, pose), Spawned(st.nextId + 1, st.nextId)]
  {
    var a := st.nextId;
    var s1 := AttachAnchor(st, plane, pose);
    var r := Instantiate(s1, a, prefab);
    assert s1.anchors[a].children + [a + 1] == [a + 1];
    assert r.anchors == st.anchors[a := Anchor(plane, pose, One3, [a + 1])];
    PlaceKeepsValid(st, Anchor(plane, pose, One3, [a + 1]), PlacedObject(a, PrefabRotation, prefab), r.effects);
    r
  }

  lemma PlaceKeepsValid(st: Store, an: Anchor, ob: PlacedObject, effects: seq<Effect>)
    requires Valid(st)
    requires an.children == [st.nextId + 1] && UniformScaleInRange(an.localScale)
    requires ob.parent == st.nextId && |ob.childActive| > GizmoIndex
    ensures st.nextId !in st.anchors && st.nextId + 1 !in st.objects
    ensures Valid(Store(st.anchors[st.nextId := an], st.objects[st.nextId + 1 := ob], st.nextId + 2, effects))
  {
    var a := st.nextId;
    var r := Store(st.anchors[a := an], st.objects[a + 1 := ob], a + 2, effects);
    BelowNextId(st);
    forall b | b in r.anchors ensures AnchorOk(r, b) {
      if b != a {
        assert AnchorOk(st, b);
      }
    }
    forall o | o in r.objects ensures ObjectOk(r, o) {
      if o != a + 1 {
        assert ObjectOk(st, o);
      }
    }
  }

  /** Move: attach a new anchor at `pose`, reparent the object of anchor `a` to it, copy
      `a`'s scale onto it, and only then destroy `a`. */
  function Reanchor(st: Store, a: AnchorId, plane: TrackableId, pose: Pose): (r: Store)
    requires Valid(st) && a in st.anchors
    ensures Valid(r)
    ensures var n := st.nextId; var o := st.anchors[a].children[0];
      && o in st.objects
      && r.anchors == (st.anchors - {a})[n := Anchor(plane, pose, st.anchors[a].localScale, [o])]
      && r.objects == st.objects[o := st.objects[o].(parent := n)]
      && r.nextId == n + 1
      && r.effects == st.effects + [Attached(n, pose), Reparented(o, a, n), ScaleCopied(a, n), Destroyed(a)]
  {
    var n := st.nextId;
    var o := st.anchors[a].children[0];
    ReanchorSteps(st, a, plane, pose);
    var r := DestroyAnchor(CopyScale(SetParent(AttachAnchor(st, plane, pose), o, n), a, n), a);
    ReanchorKeepsValid(st, a, Anchor(plane, pose, st.anchors[a].localScale, [o]), r.effects);
    r
  }

  /** The four calls Move makes, in order, leave the anchor map with the old anchor
      replaced by the new one, which owns the object. */
  lemma ReanchorSteps(st: Store, a: AnchorId, plane: TrackableId, pose: Pose)
    requires Valid(st) && a in st.anchors
    ensures var n := st.nextId; var o := st.anchors[a].children[0];
      && n !in st.anchors && o in st.objects && st.objects[o].parent == a
      && var s1 := AttachAnchor(st, plane, pose);
         && SetParent.requires(s1, o, n)
         && var s2 := SetParent(s1, o, n);
            && CopyScale.requires(s2, a, n)
            && var s3 := CopyScale(s2, a, n);
               && DestroyAnchor.requires(s3, a)
               && DestroyAnchor(s3, a).anchors == (st.anchors - {a})[n := Anchor(plane, pose, st.anchors[a].localScale, [o])]
  {
    var n := st.nextId;
    var o := st.anchors[a].children[0];
    assert AnchorOk(st, a);
    ReanchorFresh(st, a);
    var s1 := AttachAnchor(st, plane, pose);
    var s2 := SetParent(s1, o, n);
    assert Without([o], o) == [];
    assert [] + [o] == [o];
    assert s2.anchors == st.anchors[a := st.anchors[a].(children := [])][n := Anchor(plane, pose, One3, [o])];
    var s3 := CopyScale(s2, a, n);
    assert s3.anchors == st.anchors[a := st.anchors[a].(children := [])][n := Anchor(plane, pose, st.anchors[a].localScale, [o])];
  }

  /** Re-anchoring changes only the two anchors and the one object involved, and leaves
      the object with the new anchor as its only owner. */
  lemma ReanchorFrame(st: Store, a: AnchorId, plane: TrackableId, pose: Pose)
    requires Valid(st) && a in st.anchors
    ensures var r := Reanchor(st, a, plane, pose); var n := st.nextId; var o := st.anchors[a].children[0];
      && (forall b :: b in r.anchors && b != n ==> b in st.anchors && r.anchors[b] == st.anchors[b])
      && (forall q :: q in r.objects ==> q in st.objects && (q != o ==> r.objects[q] == st.objects[q]))
      && (forall b :: b in r.anchors && o in r.anchors[b].children ==> b == n)
  {
    var r := Reanchor(st, a, plane, pose);
    var o := st.anchors[a].children[0];
    forall b | b in r.anchors && o in r.anchors[b].children
      ensures b == st.nextId
    {
      OwnerIsParent(r, b, o);
    }
  }

  lemma ReanchorFresh(st: Store, a: AnchorId)
    requires Valid(st) && a in st.anchors
    ensures st.nextId !in st.anchors && st.nextId != a
    ensures st.anchors[a].children[0] in st.objects
    ensures st.objects[st.anchors[a].children[0]].parent == a
  {
    assert AnchorOk(st, a);
    BelowNextId(st);
  }

  /** In a well-formed scene an object listed among an anchor's children has that anchor
      as its parent, so an object has exactly one owning anchor. */
  lemma OwnerIsParent(st: Store, b: AnchorId, o: ObjectId)
    requires Valid(st) && b in st.anchors && o in st.anchors[b].children
    ensures o in st.objects && st.objects[o].parent == b
  {
    assert AnchorOk(st, b);
    assert st.anchors[b].children == [st.anchors[b].children[0]];
  }

  /** Every identity in use is below `nextId`, so `nextId` is fresh. */
  lemma BelowNextId(st: Store)
    requires Valid(st)
    ensures forall b :: b in st.anchors ==> b < st.nextId
    ensures forall o :: o in st.objects ==> o < st.nextId
  {
    forall b | b in st.anchors ensures b < st.nextId {
      assert AnchorOk(st, b);
    }
    forall o | o in st.objects ensures o < st.nextId {
      assert ObjectOk(st, o);
    }
  }

  lemma ReanchorKeepsValid(st: Store, a: AnchorId, an: Anchor, effects: seq<Effect>)
    requires Valid(st) && a in st.anchors
    requires an.children == st.anchors[a].children && an.localScale == st.anchors[a].localScale
    ensures var o := st.anchors[a].children[0];
      o in st.objects &&
      Valid(Store((st.anchors - {a})[st.nextId := an], st.objects[o := st.objects[o].(parent := st.nextId)], st.nextId + 1, effects))
  {
    var n := st.nextId;
    ReanchorFresh(st, a);
    assert AnchorOk(st, a);
    var o := st.anchors[a].children[0];
    var r := Store((st.anchors - {a})[n := an], st.objects[o := st.objects[o].(parent := n)], n + 1, effects);
    forall b | b in r.anchors ensures AnchorOk(r, b) {
      if b != n {
        assert AnchorOk(st, b);
        assert ObjectOk(st, st.anchors[b].children[0]);
      }
    }
    forall p | p in r.objects ensures ObjectOk(r, p) {
      assert ObjectOk(st, p);
      if p != o {
        assert st.objects[p].parent != a;
      }
    }
  }
}
