/**
 * ResourceProfile and the local mode of ResourceProfileBuilder. Dictionaries
 * are Dict objects on the heap, so the sharing between a builder and the
 * profiles it builds is what the verifier sees.
 */
module ResourceProfiles {
  import opened Wrappers
  import opened ResourceRequests
  import opened Dicts
  import opened BuilderSpec

  /** The error `id` raises on a profile that no JVM-side profile backs. */
  datatype ProfileError = RuntimeError(message: string)

  const NotRegisteredMessage: string :=
    "SparkContext must be created to get the id, get the id after adding the ResourceProfile to an RDD"

  /**
   * The JVM-side profile a remote ResourceProfile wraps, seen only through what
   * it reports: its identity and its two resource maps.
   */
  datatype JavaResourceProfile = JavaResourceProfile(
    id: int,
    executorResources: map<string, ExecutorResourceRequest>,
    taskResources: map<string, TaskResourceRequest>)

  class ResourceProfile {
    /** The JVM-side profile, when there is one; otherwise the profile is local. */
    const javaResourceProfile: Option<JavaResourceProfile>
    /** The local dictionaries; absent on a JVM-backed profile. */
    const executorResourceRequests: Dict?<ExecutorResourceRequest>
    const taskResourceRequests: Dict?<TaskResourceRequest>

    /** Exactly the local profiles hold local dictionaries. */
    ghost predicate Valid() {
      if javaResourceProfile.Some? then executorResourceRequests == null && taskResourceRequests == null
      else executorResourceRequests != null && taskResourceRequests != null
    }

    /**
     * A profile backed by `javaProfile` when it is given (the dictionaries are
     * then ignored), else a local one over `execReq or {}` and `taskReq or {}`:
     * a given non-empty dictionary is kept as the same object, an absent or
     * empty one is replaced by a new empty dictionary.
     */
    constructor (
      javaProfile: Option<JavaResourceProfile>,
      execReq: Option<Dict<ExecutorResourceRequest>>,
      taskReq: Option<Dict<TaskResourceRequest>>)
      ensures Valid() && javaResourceProfile == javaProfile
      ensures javaProfile.None? && execReq.Some? && execReq.value.entries != map[] ==>
        executorResourceRequests == execReq.value
      ensures javaProfile.None? && (execReq.None? || execReq.value.entries == map[]) ==>
        executorResourceRequests != null && fresh(executorResourceRequests) && executorResourceRequests.entries == map[]
      ensures javaProfile.None? && taskReq.Some? && taskReq.value.entries != map[] ==>
        taskResourceRequests == taskReq.value
      ensures javaProfile.None? && (taskReq.None? || taskReq.value.entries == map[]) ==>
        taskResourceRequests != null && fresh(taskResourceRequests) && taskResourceRequests.entries == map[]
    {
      javaResourceProfile := javaProfile;
      if javaProfile.Some? {
        executorResourceRequests := null;
        taskResourceRequests := null;
      } else {
        var e := OrEmpty(execReq);
        var t := OrEmpty(taskReq);
        executorResourceRequests := e;
        taskResourceRequests := t;
      }
    }

    /** The profile's identity: the JVM-side profile's id, and an error on every local profile. */
    function Id(): (r: Result<int, ProfileError>)
      ensures r.Ok? <==> javaResourceProfile.Some?
      ensures javaResourceProfile.Some? ==> r.value == javaResourceProfile.value.id
      ensures javaResourceProfile.None? ==> r.error == RuntimeError(NotRegisteredMessage)
    {
      if javaResourceProfile.Some? then Ok(javaResourceProfile.value.id)
      else Err(RuntimeError(NotRegisteredMessage))
    }

    /** The task requests this profile reports now. */
    ghost function Tasks(): map<string, TaskResourceRequest>
      requires Valid()
      reads taskResourceRequests
    {
      if javaResourceProfile.Some? then javaResourceProfile.value.taskResources
      else taskResourceRequests.entries
    }

    /** The executor requests this profile reports now. */
    ghost function Executors(): map<string, ExecutorResourceRequest>
      requires Valid()
      reads executorResourceRequests
    {
      if javaResourceProfile.Some? then javaResourceProfile.value.executorResources
      else executorResourceRequests.entries
    }

    /**
     * `taskResources`: a local profile hands out its own dictionary object; a
     * JVM-backed one builds a new dictionary from the JVM-side map on every call.
     */
    method TaskResources() returns (r: Dict<TaskResourceRequest>)
      requires Valid()
      ensures javaResourceProfile.None? ==> r == taskResourceRequests
      ensures javaResourceProfile.Some? ==> fresh(r)
      ensures r.entries == Tasks()
    {
      if javaResourceProfile.Some? {
        r := new Dict();
        r.entries := javaResourceProfile.value.taskResources;
      } else {
        r := taskResourceRequests;
      }
    }

    /** `executorResources`, symmetric to TaskResources. */
    method ExecutorResources() returns (r: Dict<ExecutorResourceRequest>)
      requires Valid()
      ensures javaResourceProfile.None? ==> r == executorResourceRequests
      ensures javaResourceProfile.Some? ==> fresh(r)
      ensures r.entries == Executors()
    {
      if javaResourceProfile.Some? {
        r := new Dict();
        r.entries := javaResourceProfile.value.executorResources;
      } else {
        r := executorResourceRequests;
      }
    }
  }

  /** A builder created while no SparkContext JVM is available: it keeps two local dictionaries. */
  class ResourceProfileBuilder {
    var executorResourceRequests: Dict<ExecutorResourceRequest>
    var taskResourceRequests: Dict<TaskResourceRequest>

    /**
     * The two sides are separate dictionary objects. Their differing type
     * arguments already guarantee this; the predicate records it for the
     * frames of Require and the clears.
     */
    ghost predicate Valid()
      reads this
    {
      executorResourceRequests as object != taskResourceRequests as object
    }

    /** What the builder has accumulated. */
    ghost function State(): Accumulated
      reads this, executorResourceRequests, taskResourceRequests
    {
      Accumulated(executorResourceRequests.entries, taskResourceRequests.entries)
    }

    /** A new local builder holds two new, empty dictionaries. */
    constructor ()
      ensures Valid() && State() == Empty
      ensures fresh(executorResourceRequests) && fresh(taskResourceRequests)
    {
      executorResourceRequests := new Dict();
      taskResourceRequests := new Dict();
    }

    /**
     * Merges a task-side group into the task dictionary, any other group into
     * the executor dictionary, in place (later values win), and returns the
     * builder itself. The side not addressed, and which objects the builder
     * holds, do not change.
     */
    method Require(group: RequestGroup) returns (self: ResourceProfileBuilder)
      requires Valid()
      modifies if group.TaskResourceRequests? then taskResourceRequests as object else executorResourceRequests
      ensures self == this && Valid()
      ensures executorResourceRequests == old(executorResourceRequests)
      ensures taskResourceRequests == old(taskResourceRequests)
      ensures State() == Step(old(State()), RequireGroup(group))
    {
      if group.TaskResourceRequests? {
        taskResourceRequests.Update(group.taskRequests);
      } else {
        executorResourceRequests.Update(group.executorRequests);
      }
      self := this;
    }

    /** Rebinds the executor side to a new empty dictionary; the old one is left as it was. */
    method ClearExecutorResourceRequests()
      requires Valid()
      modifies this
      ensures Valid() && fresh(executorResourceRequests)
      ensures taskResourceRequests == old(taskResourceRequests)
      ensures State() == Step(old(State()), ClearExecutors)
    {
      executorResourceRequests := new Dict();
    }

    /** Rebinds the task side to a new empty dictionary; the old one is left as it was. */
    method ClearTaskResourceRequests()
      requires Valid()
      modifies this
      ensures Valid() && fresh(taskResourceRequests)
      ensures executorResourceRequests == old(executorResourceRequests)
      ensures State() == Step(old(State()), ClearTasks)
    {
      taskResourceRequests := new Dict();
    }

    /** `taskResources`: the builder's own task dictionary object. */
    method TaskResources() returns (r: Dict<TaskResourceRequest>)
      ensures r == taskResourceRequests
      ensures r.entries == State().task
    {
      r := taskResourceRequests;
    }

    /** `executorResources`: the builder's own executor dictionary object. */
    method ExecutorResources() returns (r: Dict<ExecutorResourceRequest>)
      ensures r == executorResourceRequests
      ensures r.entries == State().executor
    {
      r := executorResourceRequests;
    }

    /**
     * Copy-on-build: a local profile over new dictionaries holding the current
     * entries, so that nothing the builder does later can reach it.
     */
    method BuildSnapshot() returns (p: ResourceProfile)
      requires Valid()
      ensures fresh(p) && p.Valid() && p.javaResourceProfile.None?
      ensures fresh(p.executorResourceRequests) && fresh(p.taskResourceRequests)
      ensures p.Id() == Err(RuntimeError(NotRegisteredMessage))
      ensures p.Executors() == State().executor && p.Tasks() == State().task
    {
      var e := new Dict();
      e.entries := executorResourceRequests.entries;
      var t := new Dict();
      t.entries := taskResourceRequests.entries;
      p := new ResourceProfile(None, Some(e), Some(t));
    }

    /**
     * A local profile over the builder's dictionaries as they are now. A
     * non-empty dictionary is handed over as the same object, so the profile
     * shares it with the builder; an empty one is replaced by a new one.
     */
    method Build() returns (p: ResourceProfile)
      requires Valid()
      ensures fresh(p) && p.Valid() && p.javaResourceProfile.None?
      ensures p.Id() == Err(RuntimeError(NotRegisteredMessage))
      ensures p.Executors() == State().executor && p.Tasks() == State().task
      ensures State().executor != map[] ==> p.executorResourceRequests == executorResourceRequests
      ensures State().executor == map[] ==> fresh(p.executorResourceRequests)
      ensures State().task != map[] ==> p.taskResourceRequests == taskResourceRequests
      ensures State().task == map[] ==> fresh(p.taskResourceRequests)
    {
      p := new ResourceProfile(None, Some(executorResourceRequests), Some(taskResourceRequests));
    }
  }
}
