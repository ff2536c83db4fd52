/**
  The strict evidence readers. Each answers `None` where the source raises.

  The readers of records, attempt contracts, follow-up authorizations, reconciliation
  receipts and task evidence call one another; they terminate on every store because
  each call descends in (dependency rank, attempt).
*/
module EvidenceReader {
  import opened Options
  import opened EvidenceStore

  datatype Contract = Contract(tasks: seq<TaskId>, followup: Option<seq<JobId>>)

  function Min(a: nat, b: nat): nat { if a < b then a else b }

  /** `min(through_attempt or attempt_bound, attempt_bound)`: zero means the whole bound. */
  function Upper(bound: nat, through: nat): nat { Min(if through == 0 then bound else through, bound) }

  /** `read_plan_submission_records` through an attempt. */
  function RecordsThrough(plan: Plan, st: Store, s: StageId, through: nat): Option<seq<Record>>
    requires ValidPlan(plan) && s in plan
    decreases plan[s].rank, Upper(plan[s].bound, through), 4
  {
    RecordsUpTo(plan, st, s, Upper(plan[s].bound, through))
  }

  function AllRecords(plan: Plan, st: Store, s: StageId): Option<seq<Record>>
    requires ValidPlan(plan) && s in plan
    decreases plan[s].rank, plan[s].bound, 4
  {
    RecordsUpTo(plan, st, s, plan[s].bound)
  }

  function RecordsUpTo(plan: Plan, st: Store, s: StageId, upper: nat): Option<seq<Record>>
    requires ValidPlan(plan) && s in plan
    decreases plan[s].rank, upper, 3
  {
    if upper == 0 then Some([]) else
    var before := RecordsUpTo(plan, st, s, upper - 1);
    if before.None? || Key(s, upper) !in st.records then before
    else if RecordAccepted(plan, st, s, upper) then Some(before.value + [st.records[Key(s, upper)]])
    else None
  }

  /** One record agrees with the contract its attempt committed to. */
  predicate RecordAccepted(plan: Plan, st: Store, s: StageId, attempt: nat)
    requires ValidPlan(plan) && s in plan && attempt >= 1 && Key(s, attempt) in st.records
    decreases plan[s].rank, attempt, 2
  {
    var record, contract := st.records[Key(s, attempt)], CommittedContract(plan, st, s, attempt);
    && contract.Some? && Selectable(plan[s], contract.value.tasks)
    && record.key == Key(s, attempt) && record.tasks == Select(plan[s], contract.value.tasks)
    && DependenciesAccepted(plan, st, s, record.deps)
    && (contract.value.followup.Some? ==> contract.value.followup.value == record.deps)
  }

  /** Each dependency job is an authenticated job of the prerequisite in its slot. */
  predicate DependenciesAccepted(plan: Plan, st: Store, s: StageId, deps: seq<JobId>)
    requires ValidPlan(plan) && s in plan
    decreases plan[s].rank, 0, 0
  {
    && |deps| == |plan[s].dependsOn|
    && forall i | 0 <= i < |deps| ::
         assert plan[s].dependsOn[i] in plan[s].dependsOn;
         var records := AllRecords(plan, st, plan[s].dependsOn[i]);
         records.Some? && exists r | r in records.value :: r.job == deps[i]
  }

  /** `authenticate_followup_authorization`. */
  function FollowupDeps(plan: Plan, st: Store, s: StageId, attempt: nat): Option<seq<JobId>>
    requires ValidPlan(plan) && s in plan && Key(s, attempt) in st.followups
    decreases plan[s].rank, attempt, 0
  {
    var f := st.followups[Key(s, attempt)];
    if && f.key == Key(s, attempt)
       && |f.deps| == |plan[s].dependsOn| && Distinct(f.deps)
       && f.triggerStage in plan[s].dependsOn
       && (forall i | 0 <= i < |f.deps| ::
             assert plan[s].dependsOn[i] in plan[s].dependsOn;
             var records := AllRecords(plan, st, plan[s].dependsOn[i]);
             records.Some? && SlotAccepted(records.value, f, plan[s].dependsOn[i], f.deps[i]))
    then Some(f.deps) else None
  }

  /** Exactly one record has the job; the trigger's slot holds the trigger, a retry. */
  predicate SlotAccepted(records: seq<Record>, f: Followup, dependency: StageId, job: JobId) {
    exists i | 0 <= i < |records| ::
      && records[i].job == job
      && (forall j | 0 <= j < |records| :: records[j].job == job ==> j == i)
      && (dependency == f.triggerStage ==> job == f.triggerJob && records[i].key.attempt > 1)
  }

  /** `_ordinary_retry_task_ids`: `Some(None)` when the attempt is unsigned. */
  function OrdinaryTasks(plan: Plan, st: Store, s: StageId, attempt: nat): Option<Option<seq<TaskId>>>
    requires ValidPlan(plan) && s in plan && attempt >= 2
    decreases plan[s].rank, attempt, 0
  {
    match ReadReceipt(plan, st, s, attempt - 1)
    case None => None
    case Some(previous) =>
      if previous.Some? && previous.value.decision == Retry then Some(Some(previous.value.retry))
      else if Key(s, attempt - 1) in st.rejections && st.rejections[Key(s, attempt - 1)].key == Key(s, attempt - 1) then
        Some(Some(st.rejections[Key(s, attempt - 1)].tasks))
      else Some(None)
  }

  /** `_committed_attempt_contract`: every authorization is authenticated, the intent chooses. */
  function CommittedContract(plan: Plan, st: Store, s: StageId, attempt: nat): Option<Contract>
    requires ValidPlan(plan) && s in plan && attempt >= 1
    decreases plan[s].rank, attempt, 1
  {
    var all := plan[s].tasks;
    var claimed := attempt > 1 && plan[s].dependsOn != [] && Key(s, attempt) in st.followups;
    var followup := if claimed then FollowupDeps(plan, st, s, attempt) else None;
    var ordinary := if attempt == 1 then Some(Some(all)) else OrdinaryTasks(plan, st, s, attempt);
    if (claimed && followup.None?) || ordinary.None? || (followup.None? && ordinary.value.None?) then None
    else if Key(s, attempt) !in st.intents then
      if followup.Some? then Some(Contract(all, followup)) else Some(Contract(ordinary.value.value, None))
    else
      var intent := st.intents[Key(s, attempt)];
      if intent.key != Key(s, attempt) then None
      else if followup.Some? && intent.tasks == all && intent.deps == followup.value then Some(Contract(all, followup))
      else if ordinary.value == Some(intent.tasks) then Some(Contract(intent.tasks, None))
      else None
  }

  /** `read_reconciliation_receipt`: absent, or decoded and tied to its task evidence. */
  function ReadReceipt(plan: Plan, st: Store, s: StageId, attempt: nat): Option<Option<Receipt>>
    requires ValidPlan(plan) && s in plan
    decreases plan[s].rank, attempt, 5
  {
    if Key(s, attempt) !in st.receipts then Some(None) else
    var receipt := st.receipts[Key(s, attempt)];
    if !(receipt.key == Key(s, attempt) && attempt >= 1 && Structural(plan[s], receipt)) then None else
    match RecordsThrough(plan, st, s, attempt)
    case None => None
    case Some(records) => if Supported(plan[s], st, records, receipt) then Some(Some(receipt)) else None
  }

  /** The intrinsic rules of a receipt and its coverage of the stage's tasks. */
  predicate Structural(stage: Stage, r: Receipt) {
    && Distinct(r.successful + r.retry + r.failed)
    && (forall t | t in stage.tasks :: t in r.successful || t in r.retry || t in r.failed)
    && (forall t | t in r.successful + r.retry + r.failed :: t in stage.tasks)
    && match r.decision
       case Complete => r.retry == [] && r.failed == [] && !r.stageFailed
       case Retry => r.retry != [] && r.failed == [] && !r.stageFailed
       case Failed => r.retry == [] && (r.failed != [] || r.stageFailed) && (r.stageFailed ==> r.failed == [])
  }

  // ---------------------------------------------------------- task evidence

  /** The task's evidence in attempt order; `None` where a document does not belong to its path. */
  function EvidenceOf(stage: Stage, st: Store, records: seq<Record>, t: TaskId): Option<seq<Evidence>> {
    if records == [] then Some([]) else
    var before, last := EvidenceOf(stage, st, records[..|records| - 1], t), records[|records| - 1];
    if before.None? || t !in last.tasks || TaskKey(last.key, t) !in st.evidence then before else
    var e := st.evidence[TaskKey(last.key, t)];
    if e.key == last.key && e.task == t && e.job == last.job && Authentic(stage, e) then Some(before.value + [e]) else None
  }

  predicate Backed(stage: Stage, st: Store, records: seq<Record>, t: TaskId, decision: Decision) {
    var found := EvidenceOf(stage, st, records, t);
    && found.Some? && found.value != []
    && var latest := found.value[|found.value| - 1];
    match decision
    case Complete => exists e | e in found.value :: e.successful
    case Retry => !latest.successful && latest.retryable
    case Failed => !latest.successful
  }

  function Latest(stage: Stage, st: Store, records: seq<Record>, t: TaskId): Option<Evidence> {
    var found := EvidenceOf(stage, st, records, t);
    if found.None? || found.value == [] then None else Some(found.value[|found.value| - 1])
  }

  /** `_validate_task_evidence`: each category agrees with the durable verdicts. */
  predicate Supported(stage: Stage, st: Store, records: seq<Record>, r: Receipt) {
    && (forall t | t in r.successful :: Backed(stage, st, records, t, Complete))
    && (forall t | t in r.retry :: Backed(stage, st, records, t, Retry))
    && (forall t | t in r.failed :: Backed(stage, st, records, t, Failed))
    && (r.decision == Failed && r.key.attempt < stage.bound
        && (exists t | t in r.failed :: Latest(stage, st, records, t).Some? && Latest(stage, st, records, t).value.retryable)
        ==> (exists t | t in r.failed :: Latest(stage, st, records, t).Some? && !Latest(stage, st, records, t).value.retryable))
  }
}
