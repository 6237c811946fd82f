/** `ObjectService` of the GUI over an abstract object store. The store
    holds, per profile, what `list_for_profile` returns: the saved objects,
    most recently updated first. Saving an object writes the file named by
    its `id`, replacing any object with that id; its `updated_at` is the
    current time, so it moves to the front of the listing. */
module ObjectService {
  import opened Common
  import opened ScanObjects

  /** Number of objects with status `s`. */
  function CountStatus(objs: seq<ScanObject>, s: QualityStatus): (n: nat)
    ensures n <= |objs|
  {
    if objs == [] then 0
    else CountStatus(objs[..|objs| - 1], s) + (if objs[|objs| - 1].qualityStatus == s then 1 else 0)
  }

  /** The four status counts add up to the number of objects. */
  lemma {:induction false} StatusCountsSum(objs: seq<ScanObject>)
    ensures CountStatus(objs, Pass) + CountStatus(objs, Warn) + CountStatus(objs, Fail)
            + CountStatus(objs, Pending) == |objs|
  {
    if objs != [] {
      StatusCountsSum(objs[..|objs| - 1]);
    }
  }

  predicate KeepObject(o: ScanObject, filterStage: Option<PipelineStage>, filterStatus: Option<QualityStatus>)
  {
    (filterStage.Some? ==> o.currentStage == filterStage.value)
    && (filterStatus.Some? ==> o.qualityStatus == filterStatus.value)
  }

  /** The objects that pass both filters, in their original order. */
  function Filtered(objs: seq<ScanObject>, filterStage: Option<PipelineStage>, filterStatus: Option<QualityStatus>)
    : seq<ScanObject>
  {
    if objs == [] then []
    else if KeepObject(objs[0], filterStage, filterStatus)
    then [objs[0]] + Filtered(objs[1..], filterStage, filterStatus)
    else Filtered(objs[1..], filterStage, filterStatus)
  }

  /** `a` is `b` with some elements left out, the rest in the same order. */
  predicate Subsequence<T(==)>(a: seq<T>, b: seq<T>)
    decreases |b|
  {
    a == [] || (b != [] && ((a[0] == b[0] && Subsequence(a[1..], b[1..])) || Subsequence(a, b[1..])))
  }

  /** Filtering keeps exactly the matching objects and preserves their
      order. */
  lemma {:induction false} FilteredSpec(objs: seq<ScanObject>, filterStage: Option<PipelineStage>,
                                        filterStatus: Option<QualityStatus>)
    ensures forall o :: (o in Filtered(objs, filterStage, filterStatus))
                          <==> (o in objs && KeepObject(o, filterStage, filterStatus))
    ensures Subsequence(Filtered(objs, filterStage, filterStatus), objs)
    ensures filterStage.None? && filterStatus.None? ==> Filtered(objs, filterStage, filterStatus) == objs
  {
    if objs != [] {
      FilteredSpec(objs[1..], filterStage, filterStatus);
      assert objs == [objs[0]] + objs[1..];
    }
  }

  /** The object stored under `id`, if any. */
  function Find(objs: seq<ScanObject>, id: string): (r: Option<ScanObject>)
    ensures r.Some? ==> r.value in objs && r.value.id == id
    ensures r.None? ==> forall o :: o in objs ==> o.id != id
  {
    if objs == [] then None
    else if objs[0].id == id then Some(objs[0])
    else Find(objs[1..], id)
  }

  predicate UniqueIds(objs: seq<ScanObject>)
  {
    forall i, j :: 0 <= i < j < |objs| ==> objs[i].id != objs[j].id
  }

  function WithoutId(objs: seq<ScanObject>, id: string): (r: seq<ScanObject>)
    ensures forall o :: o in r <==> o in objs && o.id != id
    ensures UniqueIds(objs) ==> UniqueIds(r)
    ensures |r| <= |objs|
  {
    if objs == [] then []
    else if objs[0].id == id then WithoutId(objs[1..], id)
    else [objs[0]] + WithoutId(objs[1..], id)
  }

  /** The listing after `save_for_profile(obj)` with a fresh `updated_at`. */
  function Saved(objs: seq<ScanObject>, obj: ScanObject): (r: seq<ScanObject>)
    ensures UniqueIds(objs) ==> UniqueIds(r)
    ensures |r| >= 1 && r[0] == obj && Find(r, obj.id) == Some(obj)
  {
    [obj] + WithoutId(objs, obj.id)
  }

  /** The keyword arguments of `update_object`, one per attribute of the
      object: `None` when the argument is absent or passed as None.
      `updated_at` is not listed: the method overwrites it anyway. */
  datatype ObjectUpdate = ObjectUpdate(
    id: Option<string>,
    profileId: Option<string>,
    name: Option<string>,
    displayName: Option<string>,
    classId: Option<int>,
    tags: Option<seq<string>>,
    knownDimensionMm: Option<real>,
    dimensionType: Option<string>,
    referenceImages: Option<seq<string>>,
    previewImage: Option<string>,
    currentStage: Option<PipelineStage>,
    qualityStatus: Option<QualityStatus>,
    projectPath: Option<string>,
    createdAt: Option<string>,
    lastScanAt: Option<string>)

  function Or<T>(update: Option<T>, current: T): T
  {
    if update.Some? then update.value else current
  }

  function OrSome<T>(update: Option<T>, current: Option<T>): Option<T>
  {
    if update.Some? then update else current
  }

  /** The attribute assignments of `update_object`, then the new
      `updated_at`. */
  function ApplyUpdate(o: ScanObject, u: ObjectUpdate, now: string): ScanObject
  {
    o.(id := Or(u.id, o.id), profileId := Or(u.profileId, o.profileId), name := Or(u.name, o.name),
       displayName := Or(u.displayName, o.displayName), classId := Or(u.classId, o.classId),
       tags := Or(u.tags, o.tags), knownDimensionMm := OrSome(u.knownDimensionMm, o.knownDimensionMm),
       dimensionType := OrSome(u.dimensionType, o.dimensionType),
       referenceImages := Or(u.referenceImages, o.referenceImages),
       previewImage := OrSome(u.previewImage, o.previewImage),
       currentStage := Or(u.currentStage, o.currentStage), qualityStatus := Or(u.qualityStatus, o.qualityStatus),
       projectPath := OrSome(u.projectPath, o.projectPath), createdAt := Or(u.createdAt, o.createdAt),
       updatedAt := now, lastScanAt := OrSome(u.lastScanAt, o.lastScanAt))
  }

  /** An update with no arguments only refreshes `updated_at`, a `None`
      argument never clears an optional attribute, and a given argument
      replaces only its own attribute. */
  lemma ApplyUpdateSpec(o: ScanObject, u: ObjectUpdate, now: string)
    ensures (u == ObjectUpdate(None, None, None, None, None, None, None, None, None, None, None, None, None,
                               None, None)) ==> ApplyUpdate(o, u, now) == o.(updatedAt := now)
    ensures o.knownDimensionMm.Some? ==> ApplyUpdate(o, u, now).knownDimensionMm.Some?
    ensures o.previewImage.Some? ==> ApplyUpdate(o, u, now).previewImage.Some?
    ensures u.currentStage.Some? ==> ApplyUpdate(o, u, now).currentStage == u.currentStage.value
    ensures u.name.None? ==> ApplyUpdate(o, u, now).name == o.name
    ensures ApplyUpdate(o, u, now).updatedAt == now
  {
  }

  /** Attribute assignment is not validated: an update can store a name the
      record's constructor would refuse. */
  lemma UpdateSkipsValidation(o: ScanObject, now: string)
    requires o.Valid()
    ensures !ApplyUpdate(o, ObjectUpdate(None, None, Some("../x"), None, None, None, None, None, None, None,
                                         None, None, None, None, None), now).Valid()
  {
    assert '/' in "../x";
  }

  class ObjectStore {
    /** Per profile: `list_for_profile`, most recently updated first. */
    var listings: map<string, seq<ScanObject>>

    predicate Valid()
      reads this
    {
      forall p :: p in listings ==> UniqueIds(listings[p])
    }

    function Listing(profileId: string): seq<ScanObject>
      reads this
    {
      if profileId in listings then listings[profileId] else []
    }

    constructor (listings: map<string, seq<ScanObject>>)
      requires forall p :: p in listings ==> UniqueIds(listings[p])
      ensures Valid() && this.listings == listings
    {
      this.listings := listings;
    }

    /** `list_objects`: the listing, narrowed by each filter that is given. */
    function ListObjects(profileId: string, filterStage: Option<PipelineStage>,
                         filterStatus: Option<QualityStatus>): (r: seq<ScanObject>)
      reads this
      ensures forall o :: o in r <==> o in Listing(profileId) && KeepObject(o, filterStage, filterStatus)
      ensures Subsequence(r, Listing(profileId))
      ensures filterStage.None? && filterStatus.None? ==> r == Listing(profileId)
    {
      FilteredSpec(Listing(profileId), filterStage, filterStatus);
      Filtered(Listing(profileId), filterStage, filterStatus)
    }

    /** `get_object_count`. */
    function GetObjectCount(profileId: string): (n: nat)
      reads this
      ensures n == |ListObjects(profileId, None, None)|
    {
      |Listing(profileId)|
    }

    /** `get_status_counts`: every status starts at 0 and each object adds
        one to its own status. */
    method GetStatusCounts(profileId: string) returns (counts: map<QualityStatus, nat>)
      ensures forall s :: s in counts && counts[s] == CountStatus(Listing(profileId), s)
      ensures counts[Pass] + counts[Warn] + counts[Fail] + counts[Pending] == GetObjectCount(profileId)
    {
      var objects := Listing(profileId);
      counts := map[Pass := 0, Warn := 0, Fail := 0, Pending := 0];
      forall s ensures s in counts && counts[s] == CountStatus(objects[..0], s) {
        assert s.Pass? || s.Warn? || s.Fail? || s.Pending?;
      }
      var i := 0;
      while i < |objects|
        invariant 0 <= i <= |objects|
        invariant forall s :: s in counts && counts[s] == CountStatus(objects[..i], s)
      {
        var status := objects[i].qualityStatus;
        assert objects[..i + 1][..i] == objects[..i];
        counts := counts[status := counts[status] + 1];
        i := i + 1;
      }
      assert objects[..i] == objects;
      StatusCountsSum(objects);
    }

    /** `update_stage`: `None` for a missing object; otherwise the stage is
        set, the status only when one is given, and the object is saved. */
    method UpdateStage(profileId: string, objectId: string, stage: PipelineStage,
                       status: Option<QualityStatus>, now: string) returns (r: Option<ScanObject>)
      requires Valid()
      modifies this
      ensures Valid()
      ensures r.None? <==> old(Find(Listing(profileId), objectId)).None?
      ensures r.None? ==> listings == old(listings)
      ensures r.Some? ==>
                var before := old(Find(Listing(profileId), objectId)).value;
                r.value == before.(currentStage := stage, qualityStatus := Or(status, before.qualityStatus),
                                   updatedAt := now)
                && listings == old(listings)[profileId := Saved(old(Listing(profileId)), r.value)]
    {
      var found := Find(Listing(profileId), objectId);
      if found.None? {
        return None;
      }
      var obj := found.value;
      obj := obj.(currentStage := stage);
      if status.Some? {
        obj := obj.(qualityStatus := status.value);
      }
      obj := obj.(updatedAt := now);
      listings := listings[profileId := Saved(Listing(profileId), obj)];
      r := Some(obj);
    }

    /** `update_object`: `None` for a missing object; otherwise every given
        argument replaces its attribute, `updated_at` is refreshed and the
        object is saved under its (possibly new) id. */
    method UpdateObject(profileId: string, objectId: string, update: ObjectUpdate, now: string)
      returns (r: Option<ScanObject>)
      requires Valid()
      modifies this
      ensures Valid()
      ensures r.None? <==> old(Find(Listing(profileId), objectId)).None?
      ensures r.None? ==> listings == old(listings)
      ensures r.Some? ==>
                r.value == ApplyUpdate(old(Find(Listing(profileId), objectId)).value, update, now)
                && listings == old(listings)[profileId := Saved(old(Listing(profileId)), r.value)]
    {
      var found := Find(Listing(profileId), objectId);
      if found.None? {
        return None;
      }
      var obj := ApplyUpdate(found.value, update, now);
      listings := listings[profileId := Saved(Listing(profileId), obj)];
      r := Some(obj);
    }
  }
}
