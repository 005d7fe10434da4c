/**
 * The tracked-image handler of the ImageTracker component.
 *
 * The host's per-frame tracking event is a sequence of marker updates; the
 * component keeps a cache from marker name to the content instance it created
 * for that marker. Content instances (the host's game objects) are entries of
 * an instance table: an instance's identity is its index in that table, and
 * instantiating a template appends a fresh entry.
 */
module ImageTracking {

  /** The host's tracking confidence for a marker in the current frame. */
  datatype TrackingState = None | Limited | Tracking

  /** Identity of a configured content template (a prefab). */
  type TemplateId = nat

  /** Identity of a created content instance: its index in the instance table. */
  type InstanceId = nat

  /** Position and orientation; only ever copied, never computed with. */
  datatype Pose = Pose(position: (real, real, real), rotation: (real, real, real, real))

  /** One configuration pair: the marker name and the template to show on it. */
  datatype TrackedImagePrefab = TrackedImagePrefab(imageName: string, prefab: TemplateId)

  /** One marker update of a tracking event. */
  datatype TrackedImage = TrackedImage(name: string, trackingState: TrackingState, pose: Pose)

  /** A created content instance: the template it was made from, its active flag and its pose. */
  datatype Instance = Instance(template: TemplateId, active: bool, pose: Pose)

  /** The handler's whole state: the name-to-instance cache and the instance table. */
  datatype Scene = Scene(cache: map<string, InstanceId>, instances: seq<Instance>)

  /**
   * The host's instantiation: the active flag and pose a fresh copy of a
   * template has when parented to a marker at the given pose. Both come from
   * the template and the host's transform hierarchy, which are not modelled.
   */
  type Spawner = (TemplateId, Pose) -> (bool, Pose)

  /** The instance the host creates for `template` on a marker at `markerPose`. */
  function NewInstance(template: TemplateId, markerPose: Pose, spawn: Spawner): (r: Instance)
    ensures r.template == template
  {
    var (active, pose) := spawn(template, markerPose);
    Instance(template, active, pose)
  }

  /** Every cached identity names an existing instance. */
  ghost predicate WellFormed(s: Scene)
  {
    forall n :: n in s.cache ==> s.cache[n] < |s.instances|
  }

  /** The templates of the configuration entries for `name`, in list order. */
  function Matches(config: seq<TrackedImagePrefab>, name: string): (r: seq<TemplateId>)
    ensures |r| <= |config|
    ensures r == [] <==> forall e :: e in config ==> e.imageName != name
  {
    if config == [] then []
    else
      (if config[0].imageName == name then [config[0].prefab] else [])
      + Matches(config[1..], name)
  }

  /**
   * The scan of the configuration list for an uncached marker: every entry
   * whose name matches is instantiated, and the cache entry is overwritten
   * each time (the scan has no early exit).
   */
  function ScanConfig(s: Scene, config: seq<TrackedImagePrefab>, name: string,
                      markerPose: Pose, spawn: Spawner): (r: Scene)
    requires WellFormed(s)
    ensures WellFormed(r)
    ensures |s.instances| <= |r.instances| && r.instances[..|s.instances|] == s.instances
    ensures s.cache.Keys <= r.cache.Keys
    decreases |config|
  {
    if config == [] then s
    else
      var e := config[0];
      var s' := if e.imageName == name
                then Scene(s.cache[name := |s.instances|],
                           s.instances + [NewInstance(e.prefab, markerPose, spawn)])
                else s;
      ScanConfig(s', config[1..], name, markerPose, spawn)
  }

  /** The scene with instance `id`'s active flag set to `active`. */
  function SetActive(s: Scene, id: InstanceId, active: bool): (r: Scene)
    requires id < |s.instances|
    ensures r.cache == s.cache && |r.instances| == |s.instances|
    ensures r.instances[id] == s.instances[id].(active := active)
    ensures forall j :: 0 <= j < |s.instances| && j != id ==> r.instances[j] == s.instances[j]
  {
    Scene(s.cache, s.instances[id := s.instances[id].(active := active)])
  }

  /** The scene with instance `id` moved to `pose`. */
  function SetPose(s: Scene, id: InstanceId, pose: Pose): (r: Scene)
    requires id < |s.instances|
    ensures r.cache == s.cache && |r.instances| == |s.instances|
    ensures r.instances[id] == s.instances[id].(pose := pose)
    ensures forall j :: 0 <= j < |s.instances| && j != id ==> r.instances[j] == s.instances[j]
  {
    Scene(s.cache, s.instances[id := s.instances[id].(pose := pose)])
  }

  /** The handling of one marker update. */
  function Step(s: Scene, config: seq<TrackedImagePrefab>, img: TrackedImage,
                spawn: Spawner): (r: Scene)
    requires WellFormed(s)
    ensures WellFormed(r)
    ensures |s.instances| <= |r.instances|
    ensures s.cache.Keys <= r.cache.Keys
  {
    var name := img.name;
    if img.trackingState == Tracking then
      if name !in s.cache then ScanConfig(s, config, name, img.pose, spawn)
      else
        var id := s.cache[name];
        SetPose(SetActive(s, id, true), id, img.pose)
    else if name in s.cache then SetActive(s, s.cache[name], false)
    else s
  }

  /** The handling of a whole tracking event: its updates, in order. */
  function Steps(s: Scene, config: seq<TrackedImagePrefab>, updated: seq<TrackedImage>,
                 spawn: Spawner): (r: Scene)
    requires WellFormed(s)
    ensures WellFormed(r)
    ensures |s.instances| <= |r.instances|
    ensures s.cache.Keys <= r.cache.Keys
    decreases |updated|
  {
    if updated == [] then s
    else Steps(Step(s, config, updated[0], spawn), config, updated[1..], spawn)
  }

  /**
   * The invariant the handler keeps: cached identities exist, distinct names
   * own distinct instances, and a cached name has a configuration entry and
   * holds an instance of its last matching template.
   */
  ghost predicate Invariant(s: Scene, config: seq<TrackedImagePrefab>)
  {
    WellFormed(s)
    && (forall n, m :: n in s.cache && m in s.cache && n != m ==> s.cache[n] != s.cache[m])
    && (forall n :: n in s.cache ==>
          Matches(config, n) != []
          && s.instances[s.cache[n]].template == Matches(config, n)[|Matches(config, n)| - 1])
  }
}
