/**
 * The ImageTracker component: the configuration list, the instance cache it
 * mutates in place, and the tracking-event handler, each proved to compute
 * the specification functions of module ImageTracking.
 */
module ImageTrackerComponent {
  import opened ImageTracking
  import TrackingProperties

  /** The component: its configuration list, its cache and the instances it created. */
  class ImageTracker {
    const trackedImagePrefabs: seq<TrackedImagePrefab>
    var instantiatedPrefabs: map<string, InstanceId>
    var instances: seq<Instance>

    /** The abstract state of the component. */
    function Current(): Scene
      reads this
    {
      Scene(instantiatedPrefabs, instances)
    }

    ghost predicate Valid()
      reads this
    {
      Invariant(Current(), trackedImagePrefabs)
    }

    /** A component configured with `config` holds no instance yet. */
    constructor (config: seq<TrackedImagePrefab>)
      ensures trackedImagePrefabs == config
      ensures instantiatedPrefabs == map[] && instances == []
      ensures Valid()
    {
      trackedImagePrefabs := config;
      instantiatedPrefabs := map[];
      instances := [];
    }

    /** Creates a fresh instance of `template` on a marker at `markerPose`. */
    method Instantiate(template: TemplateId, markerPose: Pose, spawn: Spawner) returns (id: InstanceId)
      modifies this
      ensures id == |old(instances)|
      ensures instances == old(instances) + [NewInstance(template, markerPose, spawn)]
      ensures instantiatedPrefabs == old(instantiatedPrefabs)
    {
      id := |instances|;
      instances := instances + [NewInstance(template, markerPose, spawn)];
    }

    /**
     * The scan of the configuration list for the uncached marker `imageName`:
     * every matching entry is instantiated and stored in the cache.
     */
    method InstantiateMatches(imageName: string, markerPose: Pose, spawn: Spawner)
      requires WellFormed(Current())
      modifies this
      ensures Current() == ScanConfig(old(Current()), trackedImagePrefabs, imageName, markerPose, spawn)
    {
      var i := 0;
      while i < |trackedImagePrefabs|
        invariant 0 <= i <= |trackedImagePrefabs|
        invariant WellFormed(Current())
        invariant ScanConfig(Current(), trackedImagePrefabs[i..], imageName, markerPose, spawn)
                  == ScanConfig(old(Current()), trackedImagePrefabs, imageName, markerPose, spawn)
      {
        var trackedPrefab := trackedImagePrefabs[i];
        assert trackedImagePrefabs[i..][1..] == trackedImagePrefabs[i + 1..];
        if trackedPrefab.imageName == imageName {
          var newPrefab := Instantiate(trackedPrefab.prefab, markerPose, spawn);
          instantiatedPrefabs := instantiatedPrefabs[imageName := newPrefab];
        }
        i := i + 1;
      }
    }

    /** Handles one marker update: the body of the handler's loop over the updated markers. */
    method OnTrackedImage(img: TrackedImage, spawn: Spawner)
      requires Valid()
      modifies this
      ensures Valid()
      ensures Current() == Step(old(Current()), trackedImagePrefabs, img, spawn)
    {
      TrackingProperties.StepPreservesInvariant(Current(), trackedImagePrefabs, img, spawn);
      var imageName := img.name;
      if img.trackingState == Tracking {
        if imageName !in instantiatedPrefabs {
          InstantiateMatches(imageName, img.pose, spawn);
        } else {
          var id := instantiatedPrefabs[imageName];
          instances := instances[id := instances[id].(active := true)];
          instances := instances[id := instances[id].(pose := img.pose)];
        }
      } else if imageName in instantiatedPrefabs {
        var id := instantiatedPrefabs[imageName];
        instances := instances[id := instances[id].(active := false)];
      }
    }

    /** Handles a tracking event: every updated marker, in order. */
    method OnTrackedImagesChanged(updated: seq<TrackedImage>, spawn: Spawner)
      requires Valid()
      modifies this
      ensures Valid()
      ensures Current() == Steps(old(Current()), trackedImagePrefabs, updated, spawn)
    {
      var i := 0;
      while i < |updated|
        invariant 0 <= i <= |updated|
        invariant Valid()
        invariant Steps(Current(), trackedImagePrefabs, updated[i..], spawn)
                  == Steps(old(Current()), trackedImagePrefabs, updated, spawn)
      {
        assert updated[i..][1..] == updated[i + 1..];
        OnTrackedImage(updated[i], spawn);
        i := i + 1;
      }
    }
  }
}
