/**
 * What a local ResourceProfileBuilder has accumulated, as a value, and how each
 * of its mutating calls changes it. The builder's methods are proved against
 * Step; the lemmas here say what any sequence of calls leaves behind.
 */
module BuilderSpec {
  import opened ResourceRequests
  import opened Dicts

  /** The builder's two dictionaries' contents: executor-side and task-side requests by resource name. */
  datatype Accumulated = Accumulated(
    executor: map<string, ExecutorResourceRequest>,
    task: map<string, TaskResourceRequest>)

  /** What a new local builder holds. */
  const Empty := Accumulated(map[], map[])

  /** The builder calls that change what it holds. */
  datatype Call =
    | RequireGroup(group: RequestGroup)
    | ClearExecutors
    | ClearTasks

  /** The effect of one call: a require merges into exactly one side, a clear empties exactly one side. */
  function Step(s: Accumulated, c: Call): Accumulated {
    match c
    case RequireGroup(TaskResourceRequests(g)) => s.(task := Merge(s.task, g))
    case RequireGroup(ExecutorResourceRequests(g)) => s.(executor := Merge(s.executor, g))
    case ClearExecutors => s.(executor := map[])
    case ClearTasks => s.(task := map[])
  }

  /** The effect of a sequence of calls, in order. */
  function Run(s: Accumulated, cs: seq<Call>): Accumulated
    decreases |cs|
  {
    if cs == [] then s else Run(Step(s, cs[0]), cs[1..])
  }

  /** Running one more call after a sequence is one more Step. */
  lemma {:induction false} RunSnoc(s: Accumulated, cs: seq<Call>, c: Call)
    ensures Run(s, cs + [c]) == Step(Run(s, cs), c)
    decreases |cs|
  {
    if cs == [] {
      assert cs + [c] == [c] && [c][1..] == [];
    } else {
      assert (cs + [c])[0] == cs[0] && (cs + [c])[1..] == cs[1..] + [c];
      RunSnoc(Step(s, cs[0]), cs[1..], c);
    }
  }

  /** A call as seen by one side's dictionary: an update with a group, or a reset to `{}`. */
  datatype SideCall<V> = Put(group: map<string, V>) | Clear

  function Apply<V>(m: map<string, V>, op: SideCall<V>): map<string, V> {
    match op
    case Put(g) => Merge(m, g)
    case Clear => map[]
  }

  function RunSide<V>(m: map<string, V>, ops: seq<SideCall<V>>): map<string, V>
    decreases |ops|
  {
    if ops == [] then m else RunSide(Apply(m, ops[0]), ops[1..])
  }

  /** What one call does to the task-side dictionary: nothing, an update, or a reset. */
  function TaskCall(c: Call): seq<SideCall<TaskResourceRequest>> {
    match c
    case RequireGroup(TaskResourceRequests(g)) => [Put(g)]
    case ClearTasks => [Clear]
    case _ => []
  }

  /** What one call does to the executor-side dictionary: nothing, an update, or a reset. */
  function ExecutorCall(c: Call): seq<SideCall<ExecutorResourceRequest>> {
    match c
    case RequireGroup(ExecutorResourceRequests(g)) => [Put(g)]
    case ClearExecutors => [Clear]
    case _ => []
  }

  /** The calls that reach the task-side dictionary, in order. */
  function TaskCalls(cs: seq<Call>): seq<SideCall<TaskResourceRequest>>
    decreases |cs|
  {
    if cs == [] then [] else TaskCall(cs[0]) + TaskCalls(cs[1..])
  }

  /** The calls that reach the executor-side dictionary, in order. */
  function ExecutorCalls(cs: seq<Call>): seq<SideCall<ExecutorResourceRequest>>
    decreases |cs|
  {
    if cs == [] then [] else ExecutorCall(cs[0]) + ExecutorCalls(cs[1..])
  }

  /** Whether a side call can change the entry for `name`. */
  predicate Touches<V>(op: SideCall<V>, name: string) {
    op.Clear? || name in op.group
  }

  lemma {:induction false} RunSideAppend<V>(m: map<string, V>, a: seq<SideCall<V>>, b: seq<SideCall<V>>)
    ensures RunSide(m, a + b) == RunSide(RunSide(m, a), b)
    decreases |a|
  {
    if a != [] {
      assert (a + b)[0] == a[0] && (a + b)[1..] == a[1..] + b;
      RunSideAppend(Apply(m, a[0]), a[1..], b);
    } else {
      assert a + b == b;
    }
  }

  /**
   * The two sides never cross-contaminate: each side's final dictionary is
   * determined by its own starting contents and the calls addressed to it.
   */
  lemma {:induction false} RunProjects(s: Accumulated, cs: seq<Call>)
    ensures Run(s, cs).executor == RunSide(s.executor, ExecutorCalls(cs))
    ensures Run(s, cs).task == RunSide(s.task, TaskCalls(cs))
    decreases |cs|
  {
    if cs != [] {
      var t := Step(s, cs[0]);
      RunProjects(t, cs[1..]);
      RunSideAppend(s.task, TaskCall(cs[0]), TaskCalls(cs[1..]));
      RunSideAppend(s.executor, ExecutorCall(cs[0]), ExecutorCalls(cs[1..]));
    }
  }

  /** A name no call touches keeps its starting entry, or stays absent. */
  lemma {:induction false} UntouchedKept<V>(m: map<string, V>, ops: seq<SideCall<V>>, name: string)
    requires forall j :: 0 <= j < |ops| ==> !Touches(ops[j], name)
    ensures name in RunSide(m, ops) <==> name in m
    ensures name in m ==> RunSide(m, ops)[name] == m[name]
    decreases |ops|
  {
    if ops != [] {
      assert !Touches(ops[0], name);
      UntouchedKept(Apply(m, ops[0]), ops[1..], name);
    }
  }

  /** Last write wins: the value from the last group naming `name` is the final one, if no clear follows it. */
  lemma {:induction false} LastWriteWins<V>(m: map<string, V>, ops: seq<SideCall<V>>, i: nat, name: string)
    requires i < |ops| && ops[i].Put? && name in ops[i].group
    requires forall j :: i < j < |ops| ==> !Touches(ops[j], name)
    ensures name in RunSide(m, ops) && RunSide(m, ops)[name] == ops[i].group[name]
    decreases |ops|
  {
    if i == 0 {
      UntouchedKept(Apply(m, ops[0]), ops[1..], name);
    } else {
      LastWriteWins(Apply(m, ops[0]), ops[1..], i - 1, name);
    }
  }

  /** A clear that no later update of `name` follows leaves `name` absent. */
  lemma {:induction false} ClearedStaysAbsent<V>(m: map<string, V>, ops: seq<SideCall<V>>, i: nat, name: string)
    requires i < |ops| && ops[i].Clear?
    requires forall j :: i < j < |ops| ==> !Touches(ops[j], name)
    ensures name !in RunSide(m, ops)
    decreases |ops|
  {
    if i == 0 {
      UntouchedKept(Apply(m, ops[0]), ops[1..], name);
    } else {
      ClearedStaysAbsent(Apply(m, ops[0]), ops[1..], i - 1, name);
    }
  }

  /**
   * Updates with pairwise distinct resource names accumulate their union: each
   * update's entries all survive, and a name none of them mentions keeps its
   * starting entry or stays absent.
   */
  lemma DistinctNamesUnion<V>(m: map<string, V>, ops: seq<SideCall<V>>, name: string)
    requires forall j :: 0 <= j < |ops| ==> ops[j].Put?
    requires forall i, j :: 0 <= i < j < |ops| ==> ops[i].group.Keys !! ops[j].group.Keys
    ensures forall i :: 0 <= i < |ops| && name in ops[i].group ==>
      name in RunSide(m, ops) && RunSide(m, ops)[name] == ops[i].group[name]
    ensures (forall i :: 0 <= i < |ops| ==> name !in ops[i].group) ==>
      (name in RunSide(m, ops) <==> name in m) && (name in m ==> RunSide(m, ops)[name] == m[name])
  {
    forall i | 0 <= i < |ops| && name in ops[i].group
      ensures name in RunSide(m, ops) && RunSide(m, ops)[name] == ops[i].group[name]
    {
      forall j | i < j < |ops| ensures !Touches(ops[j], name) {
        assert ops[i].group.Keys !! ops[j].group.Keys;
      }
      LastWriteWins(m, ops, i, name);
    }
    if forall i :: 0 <= i < |ops| ==> name !in ops[i].group {
      UntouchedKept(m, ops, name);
    }
  }

  /** Requiring the same group twice in a row holds what requiring it once does. */
  lemma RequireTwiceIsOnce(s: Accumulated, g: RequestGroup)
    ensures Step(Step(s, RequireGroup(g)), RequireGroup(g)) == Step(s, RequireGroup(g))
  {
  }
}
