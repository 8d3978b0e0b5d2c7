/** MarkerController: spawns one marker object per reference-image name. Each image the
    image tracker reports as added is looked up by its reference-image name; when no
    object exists for that name yet and a configured pair names it, the pair's prefab is
    instantiated under the image and recorded under the name. Updated and removed images
    are not acted on. */
module Markers {
  import opened Engine

  /** A reference-image name with the prefab to spawn on images of that name. */
  datatype ImagePrefabPair = ImagePrefabPair(referenceImageName: string, trackedImagePrefab: PrefabId)

  /** A game object instantiated from `prefab` as a child of the tracked image `parent`. */
  datatype SpawnedObject = SpawnedObject(prefab: PrefabId, parent: TrackedImage)

  /** `_trackedImageObjects`, with the log of every object instantiated, oldest first. */
  datatype Markers = Markers(objects: map<string, SpawnedObject>, spawned: seq<SpawnedObject>)

  const NoMarkers := Markers(map[], [])

  /** `List.Find`: the first pair in list order whose name is `name`, or None. */
  function Find(pairs: seq<ImagePrefabPair>, name: string): (r: Option<ImagePrefabPair>)
    ensures r.None? <==> forall i :: 0 <= i < |pairs| ==> pairs[i].referenceImageName != name
    ensures r.Some? ==> exists k :: 0 <= k < |pairs| && pairs[k] == r.value && pairs[k].referenceImageName == name
                                    && forall j :: 0 <= j < k ==> pairs[j].referenceImageName != name
    decreases |pairs|
  {
    if pairs == [] then None
    else if pairs[0].referenceImageName == name then Some(pairs[0])
    else
      Find(pairs[1..], name)
  }

  function Name(o: SpawnedObject): string {
    o.parent.referenceImageName
  }

  /** At most one object was ever spawned per name. */
  ghost predicate OnePerName(spawned: seq<SpawnedObject>) {
    forall i, j :: 0 <= i < j < |spawned| ==> Name(spawned[i]) != Name(spawned[j])
  }

  /** Every spawned object is the one recorded under its image's name. */
  ghost predicate SpawnedAreRecorded(m: Markers) {
    forall i :: 0 <= i < |m.spawned| ==> Name(m.spawned[i]) in m.objects && m.objects[Name(m.spawned[i])] == m.spawned[i]
  }

  /** Every recorded object was spawned. */
  ghost predicate RecordedWereSpawned(m: Markers) {
    forall n :: n in m.objects ==> exists i :: 0 <= i < |m.spawned| && m.spawned[i] == m.objects[n]
  }

  /** Every recorded object sits on an image of its key's name and comes from the first
      matching pair's prefab. */
  ghost predicate RecordedFromPairs(pairs: seq<ImagePrefabPair>, m: Markers) {
    forall n :: n in m.objects ==> Name(m.objects[n]) == n && Find(pairs, n).Some?
                                   && m.objects[n].prefab == Find(pairs, n).value.trackedImagePrefab
  }

  /** The invariant the controller keeps. */
  ghost predicate MarkerInv(pairs: seq<ImagePrefabPair>, m: Markers) {
    OnePerName(m.spawned) && SpawnedAreRecorded(m) && RecordedWereSpawned(m) && RecordedFromPairs(pairs, m)
  }

  /** CreateMarkerObject: a name already present, or one no pair names, changes nothing;
      otherwise the first matching pair's prefab is spawned under the image and recorded. */
  function CreateMarker(pairs: seq<ImagePrefabPair>, m: Markers, image: TrackedImage): (r: Markers)
    // an existing entry is never overwritten and no entry is removed
    ensures forall n :: n in m.objects ==> n in r.objects && r.objects[n] == m.objects[n]
    // the image's name is present afterwards exactly when it was or some pair names it
    ensures image.referenceImageName in r.objects
            <==> image.referenceImageName in m.objects || Find(pairs, image.referenceImageName).Some?
    // no other name is added
    ensures forall n :: n in r.objects ==> n in m.objects || n == image.referenceImageName
    // an unmatched or already present name leaves everything unchanged
    ensures image.referenceImageName in m.objects || Find(pairs, image.referenceImageName).None? ==> r == m
    // a new entry is one spawn of the first matching pair's prefab onto the image
    ensures image.referenceImageName !in m.objects && Find(pairs, image.referenceImageName).Some? ==>
              var o := SpawnedObject(Find(pairs, image.referenceImageName).value.trackedImagePrefab, image);
              r.objects[image.referenceImageName] == o && r.spawned == m.spawned + [o]
  {
    var name := image.referenceImageName;
    if name in m.objects then m
    else
      match Find(pairs, name)
      case None => m
      case Some(pair) =>
        var o := SpawnedObject(pair.trackedImagePrefab, image);
        Markers(m.objects[name := o], m.spawned + [o])
  }

  /** OnTrackedImagesChanged: every added image, in order. */
  function CreateMarkers(pairs: seq<ImagePrefabPair>, m: Markers, added: seq<TrackedImage>): Markers
    decreases |added|
  {
    if added == [] then m
    else CreateMarker(pairs, CreateMarkers(pairs, m, added[..|added| - 1]), added[|added| - 1])
  }

  lemma CreateMarkerKeepsInv(pairs: seq<ImagePrefabPair>, m: Markers, image: TrackedImage)
    requires MarkerInv(pairs, m)
    ensures MarkerInv(pairs, CreateMarker(pairs, m, image))
  {
    var name := image.referenceImageName;
    if name !in m.objects && Find(pairs, name).Some? {
      var o := SpawnedObject(Find(pairs, name).value.trackedImagePrefab, image);
      SpawnKeepsOnePerName(m, o);
      SpawnKeepsRecords(m, o);
    }
  }

  /** Spawning for a name not yet recorded keeps one spawn per name. */
  lemma SpawnKeepsOnePerName(m: Markers, o: SpawnedObject)
    requires OnePerName(m.spawned) && SpawnedAreRecorded(m) && Name(o) !in m.objects
    ensures OnePerName(m.spawned + [o])
  {
    var spawned := m.spawned + [o];
    forall i, j | 0 <= i < j < |spawned| ensures Name(spawned[i]) != Name(spawned[j]) {
      if j == |m.spawned| {
        assert Name(m.spawned[i]) in m.objects;
      } else {
        assert spawned[i] == m.spawned[i] && spawned[j] == m.spawned[j];
      }
    }
  }

  /** Recording a new spawn under its name keeps the log and the dictionary in step. */
  lemma SpawnKeepsRecords(m: Markers, o: SpawnedObject)
    requires SpawnedAreRecorded(m) && RecordedWereSpawned(m) && Name(o) !in m.objects
    ensures var r := Markers(m.objects[Name(o) := o], m.spawned + [o]);
      SpawnedAreRecorded(r) && RecordedWereSpawned(r)
  {
    var r := Markers(m.objects[Name(o) := o], m.spawned + [o]);
    assert r.spawned[|m.spawned|] == o;
    forall i | 0 <= i < |r.spawned|
      ensures Name(r.spawned[i]) in r.objects && r.objects[Name(r.spawned[i])] == r.spawned[i]
    {
      if i < |m.spawned| {
        assert r.spawned[i] == m.spawned[i];
        assert Name(m.spawned[i]) in m.objects;
      }
    }
    forall n | n in r.objects
      ensures exists i :: 0 <= i < |r.spawned| && r.spawned[i] == r.objects[n]
    {
      if n == Name(o) {
        assert r.spawned[|m.spawned|] == r.objects[n];
      } else {
        var i :| 0 <= i < |m.spawned| && m.spawned[i] == m.objects[n];
        assert r.spawned[i] == r.objects[n];
      }
    }
  }

  lemma {:induction false} CreateMarkersKeepsInv(pairs: seq<ImagePrefabPair>, m: Markers, added: seq<TrackedImage>)
    requires MarkerInv(pairs, m)
    ensures MarkerInv(pairs, CreateMarkers(pairs, m, added))
    decreases |added|
  {
    if added != [] {
      CreateMarkersKeepsInv(pairs, m, added[..|added| - 1]);
      CreateMarkerKeepsInv(pairs, CreateMarkers(pairs, m, added[..|added| - 1]), added[|added| - 1]);
    }
  }

  /** The dictionary only grows: every entry present before is present, unchanged, after. */
  lemma {:induction false} CreateMarkersGrows(pairs: seq<ImagePrefabPair>, m: Markers, added: seq<TrackedImage>)
    ensures forall n :: n in m.objects ==>
              n in CreateMarkers(pairs, m, added).objects && CreateMarkers(pairs, m, added).objects[n] == m.objects[n]
    decreases |added|
  {
    if added != [] {
      CreateMarkersGrows(pairs, m, added[..|added| - 1]);
    }
  }

  /** After a batch of added images, a name is recorded exactly when it was before, or
      some added image has that name and some pair names it. */
  lemma {:induction false} CreateMarkersKeys(pairs: seq<ImagePrefabPair>, m: Markers, added: seq<TrackedImage>, n: string)
    ensures n in CreateMarkers(pairs, m, added).objects
            <==> n in m.objects
                 || (Find(pairs, n).Some? && exists i :: 0 <= i < |added| && added[i].referenceImageName == n)
    decreases |added|
  {
    if added != [] {
      var front := added[..|added| - 1];
      var last := added[|added| - 1];
      CreateMarkersKeys(pairs, m, front, n);
      if Find(pairs, n).Some? && n !in m.objects {
        if exists i :: 0 <= i < |added| && added[i].referenceImageName == n {
          var i :| 0 <= i < |added| && added[i].referenceImageName == n;
          if i < |added| - 1 {
            assert front[i].referenceImageName == n;
          }
        }
        if exists i :: 0 <= i < |front| && front[i].referenceImageName == n {
          var i :| 0 <= i < |front| && front[i].referenceImageName == n;
          assert added[i].referenceImageName == n;
        }
      } else if exists i :: 0 <= i < |front| && front[i].referenceImageName == n {
        var i :| 0 <= i < |front| && front[i].referenceImageName == n;
        assert added[i].referenceImageName == n;
      }
    }
  }

  /** A second image with an already recorded name spawns nothing: at most one object per name. */
  lemma CreateMarkerOncePerName(pairs: seq<ImagePrefabPair>, m: Markers, first: TrackedImage, second: TrackedImage)
    requires first.referenceImageName == second.referenceImageName
    ensures CreateMarker(pairs, CreateMarker(pairs, m, first), second) == CreateMarker(pairs, m, first)
  {
  }

  class MarkerController {
    const imagePrefabPairs: seq<ImagePrefabPair>
    var trackedImageObjects: map<string, SpawnedObject>
    /** Every object `Instantiate` returned, oldest first. */
    var spawned: seq<SpawnedObject>

    ghost function State(): Markers
      reads this
    {
      Markers(trackedImageObjects, spawned)
    }

    ghost predicate Valid()
      reads this
    {
      MarkerInv(imagePrefabPairs, State())
    }

    constructor (imagePrefabPairs: seq<ImagePrefabPair>)
      ensures Valid() && State() == NoMarkers && this.imagePrefabPairs == imagePrefabPairs
    {
      this.imagePrefabPairs := imagePrefabPairs;
      trackedImageObjects := map[];
      spawned := [];
    }

    method CreateMarkerObject(image: TrackedImage)
      requires Valid()
      modifies this
      ensures Valid()
      ensures State() == CreateMarker(imagePrefabPairs, old(State()), image)
    {
      CreateMarkerKeepsInv(imagePrefabPairs, State(), image);
      var imageName := image.referenceImageName;
      if imageName !in trackedImageObjects {
        var imagePrefabPair := Find(imagePrefabPairs, imageName);
        if imagePrefabPair.Some? {
          var spawnedObject := SpawnedObject(imagePrefabPair.value.trackedImagePrefab, image);
          spawned := spawned + [spawnedObject];
          trackedImageObjects := trackedImageObjects[imageName := spawnedObject];
        }
      }
    }

    /** OnTrackedImagesChanged: the added images in order; `updated` and `removed` are unused. */
    method OnTrackedImagesChanged(added: seq<TrackedImage>, updated: seq<TrackedImage>, removed: seq<TrackedImage>)
      requires Valid()
      modifies this
      ensures Valid()
      ensures State() == CreateMarkers(imagePrefabPairs, old(State()), added)
    {
      for i := 0 to |added|
        invariant Valid()
        invariant State() == CreateMarkers(imagePrefabPairs, old(State()), added[..i])
      {
        assert added[..i + 1][..i] == added[..i];
        CreateMarkerObject(added[i]);
      }
      assert added[..|added|] == added;
    }
  }
}
