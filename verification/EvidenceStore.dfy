/**
  The signed plan and the write-once documents under `receipts/execution`.

  Every document carries the identity written inside it, so that a document copied
  to a foreign path is a value of the model. Identifiers are compared only for
  equality; where the source sorts them, the plan lists them in that order.
*/
module EvidenceStore {
  import opened Options

  type StageId = int
  type TaskId = int
  type JobId = int

  datatype Key = Key(stage: StageId, attempt: nat)

  datatype Policy = Policy(states: set<string>, exits: set<int>, missingReceipts: bool)

  /**
    `tasks` is in array-index order, `byId` in task-ID order; a stage without an array has one
    task. `rank` is the stage's position in dependency order and `bound` its signed attempt bound.
  */
  datatype Stage = Stage(
    rank: nat, dependsOn: seq<StageId>, tasks: seq<TaskId>, byId: seq<TaskId>, bound: nat, policy: Policy)

  type Plan = map<StageId, Stage>

  /** What the scheduler and the file system said about one task of one accepted attempt. */
  datatype Raw = Raw(state: string, exit: Option<int>, receiptsValid: bool)

  datatype Intent = Intent(key: Key, tasks: seq<TaskId>, deps: seq<JobId>)
  datatype Record = Record(key: Key, job: JobId, tasks: seq<TaskId>, deps: seq<JobId>)
  datatype Rejection = Rejection(key: Key, tasks: seq<TaskId>)
  datatype Followup = Followup(key: Key, deps: seq<JobId>, triggerStage: StageId, triggerJob: JobId)
  datatype Evidence = Evidence(key: Key, task: TaskId, job: JobId, raw: Raw, successful: bool, retryable: bool)

  datatype Decision = Complete | Retry | Failed

  /** `stageFailed` is the `__stage_receipts__` sentinel among the failed task IDs. */
  datatype Receipt = Receipt(
    key: Key, decision: Decision, successful: seq<TaskId>, retry: seq<TaskId>, failed: seq<TaskId>, stageFailed: bool)

  datatype TaskKey = TaskKey(key: Key, task: TaskId)

  datatype Store = Store(
    intents: map<Key, Intent>,
    records: map<Key, Record>,
    rejections: map<Key, Rejection>,
    followups: map<Key, Followup>,
    receipts: map<Key, Receipt>,
    evidence: map<TaskKey, Evidence>)

  // -------------------------------------------------------------- the plan

  predicate Distinct<T(==)>(xs: seq<T>) {
    forall i, j | 0 <= i < j < |xs| :: xs[i] != xs[j]
  }

  predicate ValidStage(plan: Plan, stage: Stage) {
    && Distinct(stage.tasks) && Distinct(stage.byId) && stage.tasks != [] && stage.bound >= 1
    && (forall t | t in stage.tasks :: t in stage.byId) && (forall t | t in stage.byId :: t in stage.tasks)
    && Distinct(stage.dependsOn)
    && (forall d | d in stage.dependsOn :: d in plan && plan[d].rank < stage.rank)
  }

  predicate ValidPlan(plan: Plan) {
    forall s | s in plan :: ValidStage(plan, plan[s])
  }

  /** The ordering condition: on every stage the two task orders coincide. */
  predicate OrdersAgree(plan: Plan) {
    forall s | s in plan :: plan[s].tasks == plan[s].byId
  }

  /** A follow-up's dependency jobs have its trigger in the trigger's slot. */
  predicate Timely(plan: Plan, f: Followup) {
    && f.key.stage in plan && |f.deps| == |plan[f.key.stage].dependsOn|
    && forall i | 0 <= i < |f.deps| && plan[f.key.stage].dependsOn[i] == f.triggerStage :: f.deps[i] == f.triggerJob
  }

  /** The chosen members of a sequence, in its order. */
  function Keep(ids: seq<TaskId>, chosen: set<TaskId>): seq<TaskId> {
    if ids == [] then []
    else Keep(ids[..|ids| - 1], chosen) + if ids[|ids| - 1] in chosen then [ids[|ids| - 1]] else []
  }

  function Members(ids: seq<TaskId>): set<TaskId> { set t | t in ids }

  predicate Selectable(stage: Stage, ids: seq<TaskId>) {
    ids != [] && Distinct(ids) && forall t | t in ids :: t in stage.tasks
  }

  /** `select_tasks`: the named tasks in array-index order. */
  function Select(stage: Stage, ids: seq<TaskId>): seq<TaskId> { Keep(stage.tasks, Members(ids)) }

  /** `sorted` over a set of task IDs of the stage. */
  function Sorted(stage: Stage, chosen: set<TaskId>): seq<TaskId> { Keep(stage.byId, chosen) }

  lemma {:induction false} KeepMembers(ids: seq<TaskId>, chosen: set<TaskId>)
    ensures forall t :: t in Keep(ids, chosen) <==> t in ids && t in chosen
  {
    if ids != [] {
      KeepMembers(ids[..|ids| - 1], chosen);
      assert ids == ids[..|ids| - 1] + [ids[|ids| - 1]];
    }
  }

  lemma {:induction false} KeepDistinct(ids: seq<TaskId>, chosen: set<TaskId>)
    requires Distinct(ids)
    ensures Distinct(Keep(ids, chosen))
  {
    if ids != [] {
      KeepDistinct(ids[..|ids| - 1], chosen);
      KeepMembers(ids[..|ids| - 1], chosen);
    }
  }

  /** Keeping a set that was itself kept from the same sequence changes nothing. */
  lemma {:induction false} KeepAgain(ids: seq<TaskId>, chosen: set<TaskId>, again: set<TaskId>)
    requires forall t | t in ids :: t in chosen <==> t in again
    ensures Keep(ids, chosen) == Keep(ids, again)
  {
    if ids != [] {
      var last := ids[|ids| - 1];
      assert last in ids && (last in chosen <==> last in again);
      KeepAgain(ids[..|ids| - 1], chosen, again);
    }
  }

  lemma {:induction false} KeepAll(ids: seq<TaskId>, chosen: set<TaskId>)
    requires forall t | t in ids :: t in chosen
    ensures Keep(ids, chosen) == ids
  {
    if ids != [] {
      var last := ids[|ids| - 1];
      assert last in ids && last in chosen;
      KeepAll(ids[..|ids| - 1], chosen);
      assert ids == ids[..|ids| - 1] + [ids[|ids| - 1]];
    }
  }

  /** The two orders agree exactly when every retry set reads back as the tuple it was written. */
  lemma OrderMatters(stage: Stage)
    requires forall t :: t in stage.tasks <==> t in stage.byId
    ensures stage.tasks == stage.byId <==> (forall chosen :: Select(stage, Sorted(stage, chosen)) == Sorted(stage, chosen))
  {
    if stage.tasks == stage.byId {
      forall chosen ensures Select(stage, Sorted(stage, chosen)) == Sorted(stage, chosen) {
        KeepMembers(stage.byId, chosen);
        KeepAgain(stage.tasks, chosen, Members(Sorted(stage, chosen)));
      }
    } else if forall chosen :: Select(stage, Sorted(stage, chosen)) == Sorted(stage, chosen) {
      var all := Members(stage.byId);
      assert Select(stage, Sorted(stage, all)) == Sorted(stage, all);
      KeepAll(stage.byId, all);
      KeepAll(stage.tasks, Members(stage.byId));
    }
  }

  // ------------------------------------------------------------- verdicts

  /** `is_retryable`: only the conditions named in the signed policy. */
  predicate Retryable(policy: Policy, raw: Raw) {
    || raw.state in policy.states
    || (raw.exit.Some? && raw.exit.value in policy.exits)
    || (raw.state == "MISSING" && !raw.receiptsValid && policy.missingReceipts)
  }

  predicate Successful(raw: Raw) {
    raw.state == "COMPLETED" && raw.exit == Some(0) && raw.receiptsValid
  }

  const TerminalStates := {"BOOT_FAIL", "CANCELLED", "COMPLETED", "DEADLINE", "FAILED",
                           "NODE_FAIL", "OUT_OF_MEMORY", "PREEMPTED", "REVOKED", "TIMEOUT"}

  /** Only terminal states, or a child missing under a completed array root, are frozen as evidence. */
  predicate Conclusive(raw: Raw) { raw.state in TerminalStates || raw.state == "MISSING" }

  /** `authenticated_task_verdict`: the stored booleans must be the recomputed ones. */
  predicate Authentic(stage: Stage, e: Evidence) {
    && e.successful == Successful(e.raw)
    && e.retryable == (!Successful(e.raw) && Retryable(stage.policy, e.raw))
  }
}
