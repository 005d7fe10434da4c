# ImageTracker: the tracked-image handler

This project models the `ImageTracker` component of the RealWord augmented-reality app. The host's
image tracker raises an event once per frame. The event lists the markers whose tracking changed,
each with its reference name, its tracking state (`None`, `Limited` or `Tracking`) and its pose.
The component keeps a cache from marker name to the content instance it created, and on each
update it:

- creates content: on a `Tracking` update for an uncached name, it scans the configuration list of
  `(imageName, prefab)` pairs and instantiates the template of every entry whose name matches;
- reactivates content: on a `Tracking` update for a cached name, it sets the instance active and
  copies the marker's pose onto it;
- hides content: on a `None` or `Limited` update for a cached name, it sets the instance inactive.

The model has three modules:

- `ImageTracking` (`image_tracking.dfy`) holds the data model and the specification functions.
  `Scene` pairs the cache with an instance table. An instance's identity is its index in that table,
  so instantiating a template appends to the table. `Step` handles one update and `Steps` handles
  a whole event. `Invariant` is the invariant the handler keeps: cached identities exist, distinct
  names own distinct instances, and a cached name holds an instance of its last matching template.
- `TrackingProperties` (`tracking_properties.dfy`) holds the lemmas about the specification
  functions.
- `ImageTrackerComponent` (`image_tracker.dfy`) holds the class `ImageTracker`. Its fields
  `instantiatedPrefabs` and `instances` are mutated in place, and its methods use the source's
  nested loops. `OnTrackedImage` and `OnTrackedImagesChanged` are proved to compute `Step` and
  `Steps` and to keep `Invariant`. `InstantiateMatches`, the loop over the configuration list, is
  proved to compute `ScanConfig`. `Instantiate` is proved to append one new instance and return its
  identity.

**Duplicate names.** The configuration scan has no early exit. So when several entries share a
marker name, the first `Tracking` update instantiates every one of them, in list order. Each
instantiation overwrites the cache entry, so the cache ends up holding the instance of the **last**
matching entry. The earlier instances are never reached again: no cache entry names them, so no
later update reactivates, moves or hides them. A "first matching entry wins"
reading of the configuration does not match the code. The model follows the code
(`DuplicateEntriesLastWins`, `DuplicateNameScenario`, `StepsLeaveUnnamedInstance`,
`DuplicateLeavesOrphan`).

**Inputs.** The host's instantiation is a parameter of type `Spawner`. It gives the initial active
flag and pose of a new instance, which depend on the prefab and on the marker's transform hierarchy.
Poses are opaque records that are only copied.

## Model

| member | source | states |
|---|---|---|
| `ImageTracking.NewInstance` | RealWord/Assets/ImageTracker.cs:68 | an instantiated copy records the template it was made from |
| `ImageTracking.Matches` | RealWord/Assets/ImageTracker.cs:62-64 | the templates of the entries named `name`, in list order; the list is empty exactly when no configuration entry has that name |
| `ImageTracking.ScanConfig` | RealWord/Assets/ImageTracker.cs:59-72 | the scan keeps every cached identity pointing at an existing instance, keeps every existing instance unchanged (the old table is a prefix of the new one), and removes no cache entry |
| `ImageTracking.SetActive` | RealWord/Assets/ImageTracker.cs:87 | `SetActive` (lines 77 and 87) changes only the active flag of that one instance; the cache and every other instance stay as they were |
| `ImageTracking.SetPose` | RealWord/Assets/ImageTracker.cs:78 | `SetPositionAndRotation` changes only the pose of that one instance; the cache and every other instance stay as they were |
| `ImageTracking.Step` | RealWord/Assets/ImageTracker.cs:52-89 | one update keeps cached identities valid, never shrinks the instance table and never removes a cache entry |
| `ImageTracking.Steps` | RealWord/Assets/ImageTracker.cs:50-90 | the same three facts hold across all the updates of an event, handled in order |
| `TrackingProperties.ScanInstantiatesEveryMatch` | RealWord/Assets/ImageTracker.cs:62-72 | the scan appends one new instance per matching entry, in list order; the cache is unchanged if nothing matched, and otherwise maps the name to the last instance created |
| `TrackingProperties.StepCache` | RealWord/Assets/ImageTracker.cs:53-89 | an update adds a cache entry only on the first `Tracking` update of a configured name, and that entry names the last instance created; every other update leaves the cache as it was |
| `TrackingProperties.UnknownMarkerIsNoOp` | RealWord/Assets/ImageTracker.cs:59-72 | an update for an uncached name that has no configuration entry changes nothing, whatever its tracking state |
| `TrackingProperties.UnknownMarkerNeverCached` | RealWord/Assets/ImageTracker.cs:50-72 | a name with no configuration entry never gains a cache entry, whatever sequence of updates arrives |
| `TrackingProperties.FirstTrackingInstantiates` | RealWord/Assets/ImageTracker.cs:59-71 | the first `Tracking` update of a configured name caches it under an instance that did not exist before, and leaves every existing instance unchanged |
| `TrackingProperties.DuplicateEntriesLastWins` | RealWord/Assets/ImageTracker.cs:62-72 | the first `Tracking` update creates exactly one instance per matching entry, each from that entry's template and in list order, and the cache holds the instance of the last matching entry |
| `TrackingProperties.RetrackingReactivates` | RealWord/Assets/ImageTracker.cs:74-79 | a `Tracking` update of a cached name creates no instance and keeps the cache as it was; the same instance becomes active and takes the update's pose, and every other instance is unchanged |
| `TrackingProperties.LosingTrackingDeactivates` | RealWord/Assets/ImageTracker.cs:81-88 | a `None` or `Limited` update of a cached name leaves the cache as it was and clears only that instance's active flag; for an uncached name it changes nothing |
| `TrackingProperties.AlreadyInactiveIsNoOp` | RealWord/Assets/ImageTracker.cs:84-88 | a lost-tracking update for a cached name whose instance is already inactive changes nothing |
| `TrackingProperties.DeactivationIdempotent` | RealWord/Assets/ImageTracker.cs:84-88 | a second lost-tracking update for the same name, whatever its pose, leaves the state the first one produced |
| `TrackingProperties.StepKeepsCachedIdentities` | RealWord/Assets/ImageTracker.cs:59-88 | no update removes a cache entry or changes the identity it holds |
| `TrackingProperties.CacheOnlyGrows` | RealWord/Assets/ImageTracker.cs:50-90 | across any sequence of updates, every cache entry survives with the same identity, so the cache's domain only grows |
| `TrackingProperties.OtherMarkersUntouched` | RealWord/Assets/ImageTracker.cs:52-88 | an update for one name leaves every other name's cache entry, and the active flag, pose and template of its instance, unchanged |
| `TrackingProperties.ScanKeepsInvariant` | RealWord/Assets/ImageTracker.cs:59-72 | the first `Tracking` update of a name keeps `Invariant`: the new entry is distinct from all others and holds the last matching template |
| `TrackingProperties.StepPreservesInvariant` | RealWord/Assets/ImageTracker.cs:52-89 | every update keeps `Invariant` |
| `TrackingProperties.StepsPreservesInvariant` | RealWord/Assets/ImageTracker.cs:50-90 | every sequence of updates keeps `Invariant` |
| `TrackingProperties.SingleMarkerScenario` | RealWord/Assets/ImageTracker.cs:47-91 | one configured marker over four frames: created on the first `Tracking` frame, re-synced to the new pose on the second, hidden on `None`, and the same instance shown again at the new pose on the fourth |
| `TrackingProperties.DuplicateNameScenario` | RealWord/Assets/ImageTracker.cs:62-72 | with two entries for one name, both templates are instantiated in list order and the cache keeps the second |
| `TrackingProperties.StepLeavesUnnamedInstance` | RealWord/Assets/ImageTracker.cs:53-88 | an instance that no cache entry names is unchanged by any update and no cache entry names it afterwards, because every branch reaches instances only through the cache entry for the update's name |
| `TrackingProperties.StepsLeaveUnnamedInstance` | RealWord/Assets/ImageTracker.cs:50-90 | across any sequence of updates, an instance no cache entry names stays unnamed and unchanged |
| `TrackingProperties.DuplicateLeavesOrphan` | RealWord/Assets/ImageTracker.cs:62-72 | with two entries for one name, the first instance created is left unnamed by the scan and keeps its initial state through any later updates, so a lost-tracking update never hides it |
| `ImageTrackerComponent.ImageTracker.constructor` | RealWord/Assets/ImageTracker.cs:23-26 | the component starts with its configuration list, an empty cache and no instances, and satisfies `Invariant` |
| `ImageTrackerComponent.ImageTracker.Instantiate` | RealWord/Assets/ImageTracker.cs:68 | creating an instance appends a fresh entry for the template to the instance table and returns its new identity; the cache is unchanged |
| `ImageTrackerComponent.ImageTracker.InstantiateMatches` | RealWord/Assets/ImageTracker.cs:62-72 | the in-place loop over the configuration list leaves the component in state `ScanConfig` of its old state: every matching entry instantiated, the cache holding the last |
| `ImageTrackerComponent.ImageTracker.OnTrackedImage` | RealWord/Assets/ImageTracker.cs:52-89 | the in-place handling of one update, including the configuration loop, leaves the component in state `Step` of its old state and keeps `Invariant` |
| `ImageTrackerComponent.ImageTracker.OnTrackedImagesChanged` | RealWord/Assets/ImageTracker.cs:47-91 | the loop over the event's updated markers leaves the component in state `Steps` of its old state and keeps `Invariant` |

## Left out

- Component lifecycle (`Awake`, `OnEnable`, `OnDisable`, lines 28-44): these only look up the host's image manager and subscribe or unsubscribe the handler. They are host plumbing with no logic of their own.
- The event's `added` and `removed` lists: the handler reads only `updated` (line 50), so only that list is an input.
- Unity's `Instantiate` parenting and transform inheritance (line 68): creation appends a fresh identity that carries the template. The new instance's active flag and pose come from the host-supplied `Spawner`.
- ScanConfig and InstantiateMatches: the model assumes every configuration entry has a prefab assigned. The `prefab` field (line 19) is set in Unity's Inspector and stays null until one is assigned. Given a null original, `Instantiate` at line 68 throws. The scan then stops partway, and any earlier matches stay instantiated and cached (line 70). The exception also leaves the loop at line 50, so the rest of the event's updates are never handled. While the name stays uncached, this repeats on every Tracking frame. None of this is modelled: a template always exists, and no update aborts.
- FirstTrackingInstantiates: does not state that the new instance is active or placed at the marker's pose. Both come from the prefab and the parent transform, which are host state the model does not have.
- Pose arithmetic in `SetPositionAndRotation` (line 78): this is floating point. The pose is an opaque record that is copied.
- Unity's overloaded `== null` for destroyed objects (lines 59 and 84): the model assumes that an instance is live exactly when it is in the cache. The component itself never destroys content. But line 68 parents each instance to the marker's transform, so the host destroys the instance when it destroys the marker's object. After that, `currentPrefab == null` holds at line 59. The next Tracking update then instantiates again, and line 70 overwrites the cache entry with a new identity. The model does not capture this. `RetrackingReactivates`, `StepKeepsCachedIdentities` and `CacheOnlyGrows` say that a cached identity never changes, and that holds only under this assumption.
- Game objects are entries of an instance table rather than heap objects. The component never shares or frees an instance, so aliasing between cache entries does not arise. `Invariant` proves that distinct names own distinct instances.
- Marker detection, pose estimation and rendering: the host does these. The model only consumes their results as update records.
