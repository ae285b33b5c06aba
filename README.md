# PySpark resource profiles, local mode

A Dafny model of `python/pyspark/resource/profile.py`: the `ResourceProfile`
class (a view over executor-side and task-side resource requests, with an `id`
that only a JVM-backed profile has) and the local mode of
`ResourceProfileBuilder` (the mode a builder enters when no SparkContext JVM
exists), which accumulates requests in two dictionaries keyed by resource name
and builds profiles from them.

Python dictionaries are modelled as heap objects (`Dicts.Dict`, one `entries`
map each) so that object identity is visible. The builder and profile are
classes whose fields refer to those objects:

- `require` updates one dictionary in place (`dict.update`, the later value wins
  for a repeated name); which side is chosen by the group's type, and the other
  side is untouched.
- `clearExecutorResourceRequests` / `clearTaskResourceRequests` rebind one field
  to a new empty dictionary.
- `build` passes the builder's own dictionary objects to the profile, whose
  constructor keeps a non-empty one as the same object and replaces an absent or
  empty one by a new `{}` (`x or {}`).
- `id` raises a `RuntimeError` with a fixed message on every local profile.

`BuilderSpec` states what the builder holds as a value (`Accumulated`) and the
effect of each call (`Step`, and `Run` over a sequence of calls); each builder
method's postcondition ties its new state to `Step` of its old state. The lemmas
about `Run` say that the two sides never influence each other, that the last
update naming a resource wins unless a clear follows, that a clear leaves a name
absent until it is required again, and that updates with distinct names give
their union.

## Behaviour at odds with the documentation

The class documentation (profile.py:35) says a profile is immutable once built.
The code does not copy on `build`, and the model follows the code:
`ProfileSharing.RequireAfterBuild` proves that a profile built while a side was
non-empty shares that dictionary with the builder, so a later `require` on that
side shows through the earlier profile. A profile is insulated only when the
side was empty at build time (it then got its own new dictionary) or when the
builder has since cleared that side, which rebinds the builder's field
(`ProfileSharing.ClearTasksAfterBuild`, `ProfileSharing.ClearExecutorsAfterBuild`).
The same holds for the dictionaries the accessors return: they are the objects
themselves, not copies. `ResourceProfileBuilder.BuildSnapshot` is the
copy-on-build alternative the documentation implies; `ProfileSharing.SnapshotThenCalls`
proves that no later sequence of calls changes a profile it built. The rest of
the model keeps `Build` as written.

The type hint of `require` (profile.py:137) names `ExecutorResourceRequest`, but
the branch taken for anything other than `TaskResourceRequests` reads the
argument's `requests` dictionary, as an `ExecutorResourceRequests` group has; the
model's `RequestGroup` offers those two group kinds.

## Model

| member | source | states |
|---|---|---|
| `Dicts.Merge` | python/pyspark/resource/profile.py:152-155 | `dict.update` semantics: the keys are the union of both, every key of the group takes the group's value, every other key keeps its old value |
| `Dicts.Dict.constructor` | python/pyspark/resource/profile.py:133-134 | `{}` is a new dictionary with no entries |
| `Dicts.Dict.Update` | python/pyspark/resource/profile.py:171-174 | an in-place update leaves the object holding the merge of its old entries with the group |
| `Dicts.OrEmpty` | python/pyspark/resource/profile.py:67-68 | `d or {}`: the same object when it is present and non-empty, otherwise a new empty dictionary |
| `BuilderSpec.RunSideAppend` | python/pyspark/resource/profile.py:136-187 | running two call sequences back to back equals running their concatenation |
| `BuilderSpec.RunSnoc` | python/pyspark/resource/profile.py:136-187 | one more call after a sequence of calls is one more Step of what the sequence left |
| `BuilderSpec.RunProjects` | python/pyspark/resource/profile.py:136-187 | after any sequence of require/clear calls, each side's contents depend only on its own start and on the calls addressed to that side |
| `BuilderSpec.UntouchedKept` | python/pyspark/resource/profile.py:152-155 | a name that no later update mentions and no clear resets keeps its entry (or stays absent) |
| `BuilderSpec.LastWriteWins` | python/pyspark/resource/profile.py:152-155 | the value from the last group naming a resource is the final value, when no clear follows it |
| `BuilderSpec.ClearedStaysAbsent` | python/pyspark/resource/profile.py:183-187 | after a clear, a name stays absent until some later update mentions it |
| `BuilderSpec.DistinctNamesUnion` | python/pyspark/resource/profile.py:171-174 | updates with pairwise distinct names accumulate all their entries, and other names keep their starting entry |
| `BuilderSpec.RequireTwiceIsOnce` | python/pyspark/resource/profile.py:136-175 | requiring the same group twice in a row leaves what requiring it once leaves |
| `ResourceProfiles.ResourceProfile.constructor` | python/pyspark/resource/profile.py:57-68 | a JVM-backed profile keeps only the handle; a local one keeps a given non-empty dictionary as the same object and gets a new empty one otherwise |
| `ResourceProfiles.ResourceProfile.Id` | python/pyspark/resource/profile.py:70-78 | fails exactly on local profiles, with the RuntimeError message; otherwise returns the JVM-side id |
| `ResourceProfiles.ResourceProfile.TaskResources` | python/pyspark/resource/profile.py:80-89 | a local profile returns its own task dictionary object; a JVM-backed one a new dictionary with the JVM-side entries |
| `ResourceProfiles.ResourceProfile.ExecutorResources` | python/pyspark/resource/profile.py:91-102 | the executor-side counterpart of TaskResources |
| `ResourceProfiles.ResourceProfileBuilder.constructor` | python/pyspark/resource/profile.py:130-134 | a new local builder holds two new empty dictionaries |
| `ResourceProfiles.ResourceProfileBuilder.Require` | python/pyspark/resource/profile.py:136-175 | merges a task group into the task side, any other group into the executor side, in place; the other side and the field bindings are unchanged; returns the builder itself |
| `ResourceProfiles.ResourceProfileBuilder.ClearExecutorResourceRequests` | python/pyspark/resource/profile.py:177-181 | the executor side becomes a new empty dictionary; the task side is unchanged |
| `ResourceProfiles.ResourceProfileBuilder.ClearTaskResourceRequests` | python/pyspark/resource/profile.py:183-187 | the task side becomes a new empty dictionary; the executor side is unchanged |
| `ResourceProfiles.ResourceProfileBuilder.TaskResources` | python/pyspark/resource/profile.py:189-198 | returns the builder's own task dictionary object, holding the accumulated task requests |
| `ResourceProfiles.ResourceProfileBuilder.ExecutorResources` | python/pyspark/resource/profile.py:200-211 | returns the builder's own executor dictionary object, holding the accumulated executor requests |
| `ResourceProfiles.ResourceProfileBuilder.Build` | python/pyspark/resource/profile.py:213-221 | a new local profile reporting exactly the accumulated maps, sharing each non-empty dictionary with the builder, owning a new one for each empty side, with no id |
| `ResourceProfiles.ResourceProfileBuilder.BuildSnapshot` | python/pyspark/resource/profile.py:213-221 | copy-on-build: a new local profile reporting exactly the accumulated maps, over new dictionaries that the builder does not hold, with no id |
| `ProfileSharing.ApplyCalls` | python/pyspark/resource/profile.py:136-187 | applying any sequence of require and clear calls to a builder leaves it holding Run of those calls, each side determined by its own calls |
| `ProfileSharing.SnapshotThenCalls` | python/pyspark/resource/profile.py:136-221 | a profile from BuildSnapshot reports its build-time maps after any sequence of require and clear calls on the builder |
| `ProfileSharing.SharedProfileSeesLaterRequire` | python/pyspark/resource/profile.py:136-221 | task "gpu" at 1.0, Build, require "gpu" at 2.0: the profile built first reports 2.0 |
| `ProfileSharing.SnapshotProfileKeepsBuildValue` | python/pyspark/resource/profile.py:136-221 | the same calls with BuildSnapshot: the profile built first reports 1.0 |
| `ProfileSharing.RequireAfterBuild` | python/pyspark/resource/profile.py:136-221 | a profile built before a require reports the builder's updated side when that side was non-empty at build time, and stays empty otherwise; the other side is unaffected |
| `ProfileSharing.ClearTasksAfterBuild` | python/pyspark/resource/profile.py:183-221 | after a task-side clear and a new require, an earlier profile still reports what it had at build time |
| `ProfileSharing.ClearExecutorsAfterBuild` | python/pyspark/resource/profile.py:177-221 | the executor-side counterpart of ClearTasksAfterBuild |
| `ProfileSharing.GpuScenario` | python/pyspark/resource/profile.py:136-221 | chained requires for "gpu" on both sides, a build, a task-side clear and a second build: the second profile has no task requests and the same executor requests, the first keeps its task request, neither has an id |

## Findings

| source | as written | input that shows it | evidently intended | confidence | as-written member | corrected member |
|---|---|---|---|---|---|---|
| python/pyspark/resource/profile.py:219-221 | `build` hands the builder's own non-empty dictionaries to the profile (kept by `or {}` at lines 67-68), and `require` updates them in place (lines 153, 172), so a built profile changes after later requires, against the immutability stated at line 35 | a local builder: require task "gpu" at 1.0, build, require task "gpu" at 2.0; the first profile's taskResources["gpu"] has amount 2.0 | the profile holds copies of the dictionaries taken at build time and keeps its requests whatever the builder does later | medium; not executed | `ProfileSharing.SharedProfileSeesLaterRequire` | `ResourceProfiles.ResourceProfileBuilder.BuildSnapshot` |

## Left out

- The delegated mode of `ResourceProfileBuilder` (a SparkContext JVM exists at construction): every branch that calls the JVM-side builder through py4j (profile.py:121-129, 140-151, 157-170, 178-179, 184-185, 191-196, 203-209, 215-217) is foreign code; the builder's constructor models only the local branch, so the model's builder has no mode field.
- The JVM-side profile is abstracted as `JavaResourceProfile`, the id and the two maps it reports; the loops that re-wrap each JVM request into a Python request object (profile.py:82-87, 93-100) are modelled as returning those maps' entries unchanged.
- `BridgeError`-style failures of py4j calls: only the local mode is modelled, which makes no foreign calls.
- Construction and validation of `TaskResourceRequest`, `ExecutorResourceRequest` and the request groups: they live in `pyspark.resource.requests`, which is not part of this model; here they are plain values.
- Resource amounts are modelled as `real` and never computed on, as in the source; Python integer and float representations are not distinguished.
- `build`, `id`, `taskResources` and `executorResources` are Python properties; the model writes them as calls.
- Concurrent use of one builder: the source does no locking and the model is sequential.
- The argument of `require` may be any object (its type hint at profile.py:137 names a single `ExecutorResourceRequest`); in local mode anything that is not a `TaskResourceRequests` has its `requests` attribute read (line 173) and raises if it has none. `RequestGroup` offers only the two group kinds, so that call and its error are not modelled.
- Python dictionaries keep insertion order, and `update` leaves existing keys in place; `map<string, V>` has no order, so the order in which entries are reported is not modelled.
