/**
 * Properties of the tracked-image handler: what one marker update does in
 * each of its branches, what it leaves alone, and what holds across any
 * sequence of tracking events.
 */
module TrackingProperties {
  import opened ImageTracking

  /** The instances created, in order, for the template list `templates` on a marker at `markerPose`. */
  function Spawned(templates: seq<TemplateId>, markerPose: Pose, spawn: Spawner): (r: seq<Instance>)
    ensures |r| == |templates|
  {
    if templates == [] then []
    else [NewInstance(templates[0], markerPose, spawn)] + Spawned(templates[1..], markerPose, spawn)
  }

  /** The k-th instance spawned for a template list is an instance of its k-th template. */
  lemma {:induction false} SpawnedAt(templates: seq<TemplateId>, markerPose: Pose, spawn: Spawner, k: nat)
    requires k < |templates|
    ensures Spawned(templates, markerPose, spawn)[k] == NewInstance(templates[k], markerPose, spawn)
    decreases k
  {
    if k > 0 {
      SpawnedAt(templates[1..], markerPose, spawn, k - 1);
    }
  }

  /** Spawning a list with a head entry creates the head's instance first. */
  lemma SpawnedCons(t: TemplateId, templates: seq<TemplateId>, markerPose: Pose, spawn: Spawner)
    ensures Spawned([t] + templates, markerPose, spawn)
            == [NewInstance(t, markerPose, spawn)] + Spawned(templates, markerPose, spawn)
  {
    assert ([t] + templates)[1..] == templates;
  }

  /** One step of the scan: the head entry is handled, then the rest of the list. */
  lemma ScanUnfold(s: Scene, config: seq<TrackedImagePrefab>, name: string, markerPose: Pose, spawn: Spawner)
    requires WellFormed(s) && config != []
    ensures config[0].imageName == name ==>
              ScanConfig(s, config, name, markerPose, spawn)
              == ScanConfig(Scene(s.cache[name := |s.instances|],
                                  s.instances + [NewInstance(config[0].prefab, markerPose, spawn)]),
                            config[1..], name, markerPose, spawn)
              && Matches(config, name) == [config[0].prefab] + Matches(config[1..], name)
    ensures config[0].imageName != name ==>
              ScanConfig(s, config, name, markerPose, spawn) == ScanConfig(s, config[1..], name, markerPose, spawn)
              && Matches(config, name) == Matches(config[1..], name)
  {
  }

  /** Appending the head's instance, then the rest's, spawns the whole template list. */
  lemma SpawnAfterHead(prefix: seq<Instance>, t: TemplateId, rest: seq<TemplateId>, markerPose: Pose, spawn: Spawner)
    ensures (prefix + [NewInstance(t, markerPose, spawn)]) + Spawned(rest, markerPose, spawn)
            == prefix + Spawned([t] + rest, markerPose, spawn)
  {
    SpawnedCons(t, rest, markerPose, spawn);
    assert (prefix + [NewInstance(t, markerPose, spawn)]) + Spawned(rest, markerPose, spawn)
           == prefix + ([NewInstance(t, markerPose, spawn)] + Spawned(rest, markerPose, spawn));
  }

  /** Caching the head's instance, then the rest's last one, caches the last instance overall. */
  lemma CacheAfterHead(cache: map<string, InstanceId>, name: string, n: nat, rest: seq<TemplateId>)
    ensures var c' := cache[name := n];
            (if rest == [] then c' else c'[name := n + 1 + |rest| - 1])
            == cache[name := n + |[0] + rest| - 1]
  {
  }

  /** The matching head entry is instantiated, before the rest of the list is scanned. */
  lemma ScanMatchingHead(s: Scene, config: seq<TrackedImagePrefab>, name: string, markerPose: Pose, spawn: Spawner)
    requires WellFormed(s) && config != [] && config[0].imageName == name
    requires var s' := Scene(s.cache[name := |s.instances|],
                             s.instances + [NewInstance(config[0].prefab, markerPose, spawn)]);
             var r', ms' := ScanConfig(s', config[1..], name, markerPose, spawn), Matches(config[1..], name);
             r'.instances == s'.instances + Spawned(ms', markerPose, spawn)
             && r'.cache == if ms' == [] then s'.cache else s'.cache[name := |s'.instances| + |ms'| - 1]
    ensures var r, ms := ScanConfig(s, config, name, markerPose, spawn), Matches(config, name);
            r.instances == s.instances + Spawned(ms, markerPose, spawn)
            && r.cache == s.cache[name := |s.instances| + |ms| - 1]
  {
    var ms' := Matches(config[1..], name);
    ScanUnfold(s, config, name, markerPose, spawn);
    SpawnAfterHead(s.instances, config[0].prefab, ms', markerPose, spawn);
    CacheAfterHead(s.cache, name, |s.instances|, ms');
  }

  /**
   * The configuration scan instantiates every matching entry, in list order,
   * and leaves the cache holding the instance of the last one.
   */
  lemma {:induction false} ScanInstantiatesEveryMatch(s: Scene, config: seq<TrackedImagePrefab>, name: string,
                                                      markerPose: Pose, spawn: Spawner)
    requires WellFormed(s)
    ensures var r, ms := ScanConfig(s, config, name, markerPose, spawn), Matches(config, name);
            r.instances == s.instances + Spawned(ms, markerPose, spawn)
            && r.cache == if ms == [] then s.cache else s.cache[name := |s.instances| + |ms| - 1]
    decreases |config|
  {
    if config != [] {
      if config[0].imageName == name {
        var s' := Scene(s.cache[name := |s.instances|],
                        s.instances + [NewInstance(config[0].prefab, markerPose, spawn)]);
        ScanInstantiatesEveryMatch(s', config[1..], name, markerPose, spawn);
        ScanMatchingHead(s, config, name, markerPose, spawn);
      } else {
        ScanUnfold(s, config, name, markerPose, spawn);
        ScanInstantiatesEveryMatch(s, config[1..], name, markerPose, spawn);
      }
    }
  }

  /**
   * The cache after one update: only the first Tracking update of a
   * configured marker adds an entry, and that entry names the last instance
   * created; every other update leaves the cache as it was.
   */
  lemma StepCache(s: Scene, config: seq<TrackedImagePrefab>, img: TrackedImage, spawn: Spawner)
    requires WellFormed(s)
    ensures var r := Step(s, config, img, spawn);
            r.cache == if img.trackingState == Tracking && img.name !in s.cache && Matches(config, img.name) != []
                       then s.cache[img.name := |s.instances| + |Matches(config, img.name)| - 1]
                       else s.cache
  {
    if img.trackingState == Tracking && img.name !in s.cache {
      ScanInstantiatesEveryMatch(s, config, img.name, img.pose, spawn);
    }
  }

  /** A marker with no configuration entry and no cache entry: its update changes nothing. */
  lemma UnknownMarkerIsNoOp(s: Scene, config: seq<TrackedImagePrefab>, img: TrackedImage, spawn: Spawner)
    requires WellFormed(s)
    requires Matches(config, img.name) == [] && img.name !in s.cache
    ensures Step(s, config, img, spawn) == s
  {
    ScanInstantiatesEveryMatch(s, config, img.name, img.pose, spawn);
  }

  /** A marker with no configuration entry never gains a cache entry, whatever updates arrive. */
  lemma {:induction false} UnknownMarkerNeverCached(s: Scene, config: seq<TrackedImagePrefab>,
                                                    updated: seq<TrackedImage>, spawn: Spawner, name: string)
    requires WellFormed(s)
    requires Matches(config, name) == [] && name !in s.cache
    ensures name !in Steps(s, config, updated, spawn).cache
    decreases |updated|
  {
    if updated != [] {
      var img := updated[0];
      StepCache(s, config, img, spawn);
      UnknownMarkerNeverCached(Step(s, config, img, spawn), config, updated[1..], spawn, name);
    }
  }

  /**
   * The first Tracking update of a configured marker caches a freshly created
   * instance (one that did not exist before) and changes no existing instance.
   */
  lemma FirstTrackingInstantiates(s: Scene, config: seq<TrackedImagePrefab>, img: TrackedImage, spawn: Spawner)
    requires WellFormed(s)
    requires img.trackingState == Tracking && img.name !in s.cache
    requires Matches(config, img.name) != []
    ensures var r := Step(s, config, img, spawn);
            img.name in r.cache
            && |s.instances| <= r.cache[img.name] < |r.instances|
            && r.instances[..|s.instances|] == s.instances
  {
    ScanInstantiatesEveryMatch(s, config, img.name, img.pose, spawn);
  }

  /**
   * With duplicate configuration names, the first Tracking update creates one
   * instance per matching entry, in list order, and the cache holds the
   * instance of the LAST matching entry.
   */
  lemma DuplicateEntriesLastWins(s: Scene, config: seq<TrackedImagePrefab>, img: TrackedImage, spawn: Spawner)
    requires WellFormed(s)
    requires img.trackingState == Tracking && img.name !in s.cache
    ensures var r := Step(s, config, img, spawn);
            var ms := Matches(config, img.name);
            |r.instances| == |s.instances| + |ms|
            && (forall k :: 0 <= k < |ms| ==> r.instances[|s.instances| + k].template == ms[k])
            && (ms != [] ==> img.name in r.cache
                             && r.cache[img.name] == |r.instances| - 1
                             && r.instances[r.cache[img.name]].template == ms[|ms| - 1])
  {
    var ms := Matches(config, img.name);
    ScanInstantiatesEveryMatch(s, config, img.name, img.pose, spawn);
    forall k | 0 <= k < |ms| {
      SpawnedAt(ms, img.pose, spawn, k);
    }
  }

  /** A Tracking update of a cached marker reactivates the same instance at the update's pose. */
  lemma RetrackingReactivates(s: Scene, config: seq<TrackedImagePrefab>, img: TrackedImage, spawn: Spawner)
    requires WellFormed(s)
    requires img.trackingState == Tracking && img.name in s.cache
    ensures var r := Step(s, config, img, spawn);
            var id := s.cache[img.name];
            r.cache == s.cache
            && |r.instances| == |s.instances|
            && r.instances[id] == Instance(s.instances[id].template, true, img.pose)
            && (forall j :: 0 <= j < |s.instances| && j != id ==> r.instances[j] == s.instances[j])
  {
  }

  /**
   * A None or Limited update deactivates the cached instance and keeps it
   * cached under the same identity; for an uncached marker it changes nothing.
   */
  lemma LosingTrackingDeactivates(s: Scene, config: seq<TrackedImagePrefab>, img: TrackedImage, spawn: Spawner)
    requires WellFormed(s)
    requires img.trackingState != Tracking
    ensures var r := Step(s, config, img, spawn);
            if img.name in s.cache then
              var id := s.cache[img.name];
              r.cache == s.cache
              && r.instances == s.instances[id := s.instances[id].(active := false)]
            else r == s
  {
  }

  /** Deactivating an instance that is already inactive changes nothing. */
  lemma AlreadyInactiveIsNoOp(s: Scene, config: seq<TrackedImagePrefab>, img: TrackedImage, spawn: Spawner)
    requires WellFormed(s)
    requires img.trackingState != Tracking
    requires img.name in s.cache && !s.instances[s.cache[img.name]].active
    ensures Step(s, config, img, spawn) == s
  {
    var id := s.cache[img.name];
    assert s.instances[id := s.instances[id].(active := false)] == s.instances;
  }

  /** A second lost-tracking update for the same marker, whatever its pose, changes nothing. */
  lemma DeactivationIdempotent(s: Scene, config: seq<TrackedImagePrefab>,
                               first: TrackedImage, second: TrackedImage, spawn: Spawner)
    requires WellFormed(s)
    requires first.trackingState != Tracking && second.trackingState != Tracking
    requires first.name == second.name
    ensures var r := Step(s, config, first, spawn);
            Step(r, config, second, spawn) == r
  {
    var r := Step(s, config, first, spawn);
    if first.name in s.cache {
      AlreadyInactiveIsNoOp(r, config, second, spawn);
    }
  }

  /** One update never removes a cache entry nor changes the identity it holds. */
  lemma StepKeepsCachedIdentities(s: Scene, config: seq<TrackedImagePrefab>, img: TrackedImage, spawn: Spawner)
    requires WellFormed(s)
    ensures var r := Step(s, config, img, spawn);
            forall n :: n in s.cache ==> n in r.cache && r.cache[n] == s.cache[n]
  {
    StepCache(s, config, img, spawn);
  }

  /** Across any sequence of updates, cache entries are never removed and keep their identity. */
  lemma {:induction false} CacheOnlyGrows(s: Scene, config: seq<TrackedImagePrefab>,
                                          updated: seq<TrackedImage>, spawn: Spawner)
    requires WellFormed(s)
    ensures var r := Steps(s, config, updated, spawn);
            forall n :: n in s.cache ==> n in r.cache && r.cache[n] == s.cache[n]
    decreases |updated|
  {
    if updated != [] {
      StepKeepsCachedIdentities(s, config, updated[0], spawn);
      CacheOnlyGrows(Step(s, config, updated[0], spawn), config, updated[1..], spawn);
    }
  }

  /**
   * An update for one marker leaves every other marker's cache entry, and the
   * active flag and pose of its instance, unchanged.
   */
  lemma OtherMarkersUntouched(s: Scene, config: seq<TrackedImagePrefab>, img: TrackedImage,
                              spawn: Spawner, other: string)
    requires Invariant(s, config)
    requires other != img.name
    ensures var r := Step(s, config, img, spawn);
            (other in r.cache <==> other in s.cache)
            && (other in s.cache ==>
                  r.cache[other] == s.cache[other]
                  && r.instances[s.cache[other]] == s.instances[s.cache[other]])
  {
    var r := Step(s, config, img, spawn);
    StepCache(s, config, img, spawn);
    if other in s.cache {
      var id := s.cache[other];
      if img.trackingState == Tracking && img.name !in s.cache {
        assert r.instances[..|s.instances|][id] == r.instances[id];
      }
    }
  }

  /** Changing instances' flags or poses, but no template and no cache entry, keeps the invariant. */
  lemma SameTemplatesKeepInvariant(s: Scene, r: Scene, config: seq<TrackedImagePrefab>)
    requires Invariant(s, config)
    requires r.cache == s.cache && |r.instances| == |s.instances|
    requires forall j :: 0 <= j < |s.instances| ==> r.instances[j].template == s.instances[j].template
    ensures Invariant(r, config)
  {
    forall n | n in r.cache
      ensures r.instances[r.cache[n]].template == s.instances[s.cache[n]].template
    {
    }
  }

  /** The first Tracking update of a marker keeps the invariant. */
  lemma ScanKeepsInvariant(s: Scene, config: seq<TrackedImagePrefab>, img: TrackedImage, spawn: Spawner)
    requires Invariant(s, config)
    requires img.trackingState == Tracking && img.name !in s.cache
    ensures Invariant(Step(s, config, img, spawn), config)
  {
    var r := Step(s, config, img, spawn);
    var ms := Matches(config, img.name);
    ScanInstantiatesEveryMatch(s, config, img.name, img.pose, spawn);
    if ms != [] {
      var id := |s.instances| + |ms| - 1;
      SpawnedAt(ms, img.pose, spawn, |ms| - 1);
      assert r.instances[id] == NewInstance(ms[|ms| - 1], img.pose, spawn);
      forall n | n in r.cache && n != img.name
        ensures r.cache[n] == s.cache[n] < |s.instances|
        ensures r.instances[s.cache[n]] == s.instances[s.cache[n]]
      {
      }
    }
  }

  /** One update keeps the handler's invariant. */
  lemma StepPreservesInvariant(s: Scene, config: seq<TrackedImagePrefab>, img: TrackedImage, spawn: Spawner)
    requires Invariant(s, config)
    ensures Invariant(Step(s, config, img, spawn), config)
  {
    var r := Step(s, config, img, spawn);
    if img.trackingState == Tracking && img.name !in s.cache {
      ScanKeepsInvariant(s, config, img, spawn);
    } else if img.name in s.cache {
      SameTemplatesKeepInvariant(s, r, config);
    }
  }

  /** Any sequence of updates keeps the handler's invariant. */
  lemma {:induction false} StepsPreservesInvariant(s: Scene, config: seq<TrackedImagePrefab>,
                                                   updated: seq<TrackedImage>, spawn: Spawner)
    requires Invariant(s, config)
    ensures Invariant(Steps(s, config, updated, spawn), config)
    decreases |updated|
  {
    if updated != [] {
      StepPreservesInvariant(s, config, updated[0], spawn);
      StepsPreservesInvariant(Step(s, config, updated[0], spawn), config, updated[1..], spawn);
    }
  }

  /**
   * A marker configured once, seen over four frames: created on the first
   * Tracking frame, re-synced on the second, hidden on the third and shown
   * again, as the same instance, on the fourth.
   */
  lemma SingleMarkerScenario(spawn: Spawner, p1: Pose, p2: Pose, p3: Pose, p4: Pose)
    ensures var config := [TrackedImagePrefab("Maca", 7)];
            var s1 := Steps(Scene(map[], []), config, [TrackedImage("Maca", Tracking, p1)], spawn);
            var s2 := Steps(s1, config, [TrackedImage("Maca", Tracking, p2)], spawn);
            var s3 := Steps(s2, config, [TrackedImage("Maca", None, p3)], spawn);
            var s4 := Steps(s3, config, [TrackedImage("Maca", Tracking, p4)], spawn);
            s1 == Scene(map["Maca" := 0], [NewInstance(7, p1, spawn)])
            && s2 == Scene(map["Maca" := 0], [Instance(7, true, p2)])
            && s3 == Scene(map["Maca" := 0], [Instance(7, false, p2)])
            && s4 == Scene(map["Maca" := 0], [Instance(7, true, p4)])
  {
    var config := [TrackedImagePrefab("Maca", 7)];
    var s0 := Scene(map[], []);
    assert Steps(s0, config, [TrackedImage("Maca", Tracking, p1)], spawn)
           == Step(s0, config, TrackedImage("Maca", Tracking, p1), spawn);
    ScanInstantiatesEveryMatch(s0, config, "Maca", p1, spawn);
    assert Matches(config, "Maca") == [7];
  }

  /**
   * Two configuration entries for one marker: both are instantiated, in list
   * order, and the cache keeps the second.
   */
  lemma DuplicateNameScenario(spawn: Spawner, p: Pose)
    ensures var config := [TrackedImagePrefab("Maca", 1), TrackedImagePrefab("Maca", 2)];
            Step(Scene(map[], []), config, TrackedImage("Maca", Tracking, p), spawn)
            == Scene(map["Maca" := 1], [NewInstance(1, p, spawn), NewInstance(2, p, spawn)])
  {
    var config := [TrackedImagePrefab("Maca", 1), TrackedImagePrefab("Maca", 2)];
    ScanInstantiatesEveryMatch(Scene(map[], []), config, "Maca", p, spawn);
    assert config[1..][1..] == [];
    assert Matches(config, "Maca") == [1, 2];
  }

  /** Instance `id` exists and no cache entry names it. */
  ghost predicate Unnamed(s: Scene, id: InstanceId)
  {
    id < |s.instances| && forall n :: n in s.cache ==> s.cache[n] != id
  }

  /**
   * An instance no cache entry names (an earlier duplicate the scan
   * overwrote) is left unchanged by every update and stays unnamed: no
   * later update can reactivate, move or hide it.
   */
  lemma StepLeavesUnnamedInstance(s: Scene, config: seq<TrackedImagePrefab>, img: TrackedImage,
                                  spawn: Spawner, id: InstanceId)
    requires WellFormed(s) && Unnamed(s, id)
    ensures var r := Step(s, config, img, spawn);
            Unnamed(r, id) && r.instances[id] == s.instances[id]
  {
    var r := Step(s, config, img, spawn);
    StepCache(s, config, img, spawn);
    if img.trackingState == Tracking && img.name !in s.cache {
      assert r.instances[..|s.instances|][id] == r.instances[id];
    }
  }

  /** Across any sequence of updates, an unnamed instance stays unnamed and unchanged. */
  lemma {:induction false} StepsLeaveUnnamedInstance(s: Scene, config: seq<TrackedImagePrefab>,
                                                     updated: seq<TrackedImage>, spawn: Spawner, id: InstanceId)
    requires WellFormed(s) && Unnamed(s, id)
    ensures var r := Steps(s, config, updated, spawn);
            Unnamed(r, id) && r.instances[id] == s.instances[id]
    decreases |updated|
  {
    if updated != [] {
      var s' := Step(s, config, updated[0], spawn);
      StepLeavesUnnamedInstance(s, config, updated[0], spawn, id);
      StepsLeaveUnnamedInstance(s', config, updated[1..], spawn, id);
    }
  }

  /**
   * With two entries for one marker, the first instance created is unnamed
   * after the first Tracking update, so later updates never touch it.
   */
  lemma DuplicateLeavesOrphan(spawn: Spawner, p: Pose, later: seq<TrackedImage>)
    ensures var config := [TrackedImagePrefab("Maca", 1), TrackedImagePrefab("Maca", 2)];
            var s1 := Step(Scene(map[], []), config, TrackedImage("Maca", Tracking, p), spawn);
            var r := Steps(s1, config, later, spawn);
            Unnamed(r, 0) && r.instances[0] == NewInstance(1, p, spawn)
  {
    var config := [TrackedImagePrefab("Maca", 1), TrackedImagePrefab("Maca", 2)];
    var s1 := Step(Scene(map[], []), config, TrackedImage("Maca", Tracking, p), spawn);
    DuplicateNameScenario(spawn, p);
    assert Unnamed(s1, 0);
    StepsLeaveUnnamedInstance(s1, config, later, spawn, 0);
  }
}
