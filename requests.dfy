/**
 * The request value types consumed by the resource profile. They belong to
 * pyspark.resource.requests, whose validation is not part of this model: here
 * they are plain values, and amounts are carried but never computed on.
 */
module ResourceRequests {
  /** A task's need for one named resource. */
  datatype TaskResourceRequest = TaskResourceRequest(resourceName: string, amount: real)

  /** An executor's need for one named resource, with how to discover it and who supplies it. */
  datatype ExecutorResourceRequest =
    ExecutorResourceRequest(resourceName: string, amount: real, discoveryScript: string, vendor: string)

  /**
   * The argument of ResourceProfileBuilder.require: a task-side group
   * (TaskResourceRequests), or any other group, which the builder treats as
   * executor-side (ExecutorResourceRequests). Each carries its `requests`
   * dictionary from resource name to request.
   */
  datatype RequestGroup =
    | TaskResourceRequests(taskRequests: map<string, TaskResourceRequest>)
    | ExecutorResourceRequests(executorRequests: map<string, ExecutorResourceRequest>)
}
