/**
 * What callers of a local builder observe across several calls. A profile that
 * `build` returns is not insulated from the builder: it holds the builder's
 * non-empty dictionaries themselves, so a later in-place `require` shows
 * through it, while a later `clear*` (which rebinds the builder's field) and a
 * dictionary that was empty at build time (replaced by a new one) do not.
 */
module ProfileSharing {
  import opened Wrappers
  import opened ResourceRequests
  import opened Dicts
  import opened BuilderSpec
  import opened ResourceProfiles

  /** Build, then require: the earlier profile sees the require exactly when that side was non-empty at build time. */
  method RequireAfterBuild(b: ResourceProfileBuilder, group: RequestGroup) returns (p: ResourceProfile)
    requires b.Valid()
    modifies b.executorResourceRequests, b.taskResourceRequests
    ensures b.Valid() && p.Valid() && p.javaResourceProfile.None?
    ensures b.State() == Step(old(b.State()), RequireGroup(group))
    ensures group.TaskResourceRequests? ==>
      p.Executors() == old(b.State().executor) &&
      p.Tasks() == (if old(b.State().task) == map[] then map[] else b.State().task)
    ensures group.ExecutorResourceRequests? ==>
      p.Tasks() == old(b.State().task) &&
      p.Executors() == (if old(b.State().executor) == map[] then map[] else b.State().executor)
  {
    p := b.Build();
    var same := b.Require(group);
  }

  /** Build, clear the task side, require again: the earlier profile keeps what it had. */
  method ClearTasksAfterBuild(b: ResourceProfileBuilder, g: map<string, TaskResourceRequest>) returns (p: ResourceProfile)
    requires b.Valid()
    modifies b
    ensures b.Valid() && p.Valid() && p.javaResourceProfile.None?
    ensures p.Tasks() == old(b.State().task) && p.Executors() == old(b.State().executor)
    ensures b.State() == Accumulated(old(b.State().executor), g)
  {
    p := b.Build();
    b.ClearTaskResourceRequests();
    var same := b.Require(TaskResourceRequests(g));
  }

  /** Build, clear the executor side, require again: the earlier profile keeps what it had. */
  method ClearExecutorsAfterBuild(b: ResourceProfileBuilder, g: map<string, ExecutorResourceRequest>) returns (p: ResourceProfile)
    requires b.Valid()
    modifies b
    ensures b.Valid() && p.Valid() && p.javaResourceProfile.None?
    ensures p.Tasks() == old(b.State().task) && p.Executors() == old(b.State().executor)
    ensures b.State() == Accumulated(g, old(b.State().task))
  {
    p := b.Build();
    b.ClearExecutorResourceRequests();
    var same := b.Require(ExecutorResourceRequests(g));
  }

  /**
   * A chained executor-side and task-side require for "gpu", a build, then a
   * task-side clear and a second build. The second profile has no task requests
   * and the same executor requests; the first still reports its task request;
   * neither has an id.
   */
  method GpuScenario() returns (first: ResourceProfile, second: ResourceProfile)
    ensures first.Valid() && second.Valid()
    ensures first.Executors() == second.Executors()
    ensures "gpu" in first.Executors() && first.Executors()["gpu"].amount == 2.0
    ensures first.Executors()["gpu"].vendor == "nvidia.com"
    ensures "gpu" in first.Tasks() && first.Tasks()["gpu"].amount == 1.0
    ensures second.Tasks() == map[]
    ensures first.Id().Err? && second.Id().Err?
  {
    var gpuExecutor := ExecutorResourceRequest("gpu", 2.0, "", "nvidia.com");
    var gpuTask := TaskResourceRequest("gpu", 1.0);
    var b := new ResourceProfileBuilder();
    var chained := b.Require(ExecutorResourceRequests(map["gpu" := gpuExecutor]));
    chained := chained.Require(TaskResourceRequests(map["gpu" := gpuTask]));
    first := b.Build();
    b.ClearTaskResourceRequests();
    second := b.Build();
  }

  /** Any sequence of require and clear calls, applied to a builder in order, leaves it holding Run of those calls. */
  method ApplyCalls(b: ResourceProfileBuilder, cs: seq<Call>)
    requires b.Valid()
    modifies b, b.executorResourceRequests, b.taskResourceRequests
    ensures b.Valid() && b.State() == Run(old(b.State()), cs)
    ensures b.State().executor == RunSide(old(b.State().executor), ExecutorCalls(cs))
    ensures b.State().task == RunSide(old(b.State().task), TaskCalls(cs))
    ensures b.executorResourceRequests == old(b.executorResourceRequests) || fresh(b.executorResourceRequests)
    ensures b.taskResourceRequests == old(b.taskResourceRequests) || fresh(b.taskResourceRequests)
  {
    var i := 0;
    while i < |cs|
      invariant 0 <= i <= |cs| && b.Valid()
      invariant b.State() == Run(old(b.State()), cs[..i])
      invariant b.executorResourceRequests == old(b.executorResourceRequests) || fresh(b.executorResourceRequests)
      invariant b.taskResourceRequests == old(b.taskResourceRequests) || fresh(b.taskResourceRequests)
    {
      match cs[i] {
        case RequireGroup(g) =>
          var same := b.Require(g);
        case ClearExecutors =>
          b.ClearExecutorResourceRequests();
        case ClearTasks =>
          b.ClearTaskResourceRequests();
      }
      RunSnoc(old(b.State()), cs[..i], cs[i]);
      assert cs[..i + 1] == cs[..i] + [cs[i]];
      i := i + 1;
    }
    assert cs[..|cs|] == cs;
    RunProjects(old(b.State()), cs);
  }

  /**
   * The copy-on-build alternative to Build: a profile from BuildSnapshot keeps
   * its build-time requests whatever require and clear calls follow.
   */
  method SnapshotThenCalls(b: ResourceProfileBuilder, cs: seq<Call>) returns (p: ResourceProfile)
    requires b.Valid()
    modifies b, b.executorResourceRequests, b.taskResourceRequests
    ensures b.Valid() && p.Valid() && p.javaResourceProfile.None?
    ensures b.State() == Run(old(b.State()), cs)
    ensures p.Tasks() == old(b.State().task) && p.Executors() == old(b.State().executor)
  {
    p := b.BuildSnapshot();
    var i := 0;
    while i < |cs|
      invariant 0 <= i <= |cs| && b.Valid() && p.Valid()
      invariant b.State() == Run(old(b.State()), cs[..i])
      invariant b.executorResourceRequests == old(b.executorResourceRequests) || fresh(b.executorResourceRequests)
      invariant b.taskResourceRequests == old(b.taskResourceRequests) || fresh(b.taskResourceRequests)
      invariant b.executorResourceRequests != p.executorResourceRequests
      invariant b.taskResourceRequests != p.taskResourceRequests
      invariant p.Tasks() == old(b.State().task) && p.Executors() == old(b.State().executor)
    {
      match cs[i] {
        case RequireGroup(g) =>
          var same := b.Require(g);
        case ClearExecutors =>
          b.ClearExecutorResourceRequests();
        case ClearTasks =>
          b.ClearTaskResourceRequests();
      }
      RunSnoc(old(b.State()), cs[..i], cs[i]);
      assert cs[..i + 1] == cs[..i] + [cs[i]];
      i := i + 1;
    }
    assert cs[..|cs|] == cs;
  }

  /** As written: task "gpu" at 1.0, build, require "gpu" at 2.0; the profile built first reports 2.0. */
  method SharedProfileSeesLaterRequire() returns (p: ResourceProfile)
    ensures p.Valid() && "gpu" in p.Tasks() && p.Tasks()["gpu"].amount == 2.0
  {
    var b := new ResourceProfileBuilder();
    var same := b.Require(TaskResourceRequests(map["gpu" := TaskResourceRequest("gpu", 1.0)]));
    p := b.Build();
    same := b.Require(TaskResourceRequests(map["gpu" := TaskResourceRequest("gpu", 2.0)]));
  }

  /** With copy-on-build, the same calls leave the profile built first reporting 1.0. */
  method SnapshotProfileKeepsBuildValue() returns (p: ResourceProfile)
    ensures p.Valid() && "gpu" in p.Tasks() && p.Tasks()["gpu"].amount == 1.0
  {
    var b := new ResourceProfileBuilder();
    var same := b.Require(TaskResourceRequests(map["gpu" := TaskResourceRequest("gpu", 1.0)]));
    p := b.BuildSnapshot();
    same := b.Require(TaskResourceRequests(map["gpu" := TaskResourceRequest("gpu", 2.0)]));
  }
}
