/**
  What the engine derives from the evidence: dependency jobs, the authorization of an
  attempt, the owning follow-up generation and the reconciliation decision. Every
  derivation reads through the strict readers and answers `None` where the source raises.
*/
module EvidenceEngine {
  import opened Options
  import opened EvidenceStore
  import opened EvidenceReader

  /** `_dependency_jobs`: the latest accepted job of each prerequisite. */
  function DependencyJobs(plan: Plan, st: Store, s: StageId): Option<seq<JobId>>
    requires ValidPlan(plan) && s in plan
  {
    if forall d | d in plan[s].dependsOn :: LatestRecord(plan, st, d).Some? then
      Some(seq(|plan[s].dependsOn|, i requires 0 <= i < |plan[s].dependsOn| =>
        assert plan[s].dependsOn[i] in plan[s].dependsOn;
        LatestRecord(plan, st, plan[s].dependsOn[i]).value.job))
    else None
  }

  function LatestRecord(plan: Plan, st: Store, s: StageId): Option<Record>
    requires ValidPlan(plan) && s in plan
  {
    var records := AllRecords(plan, st, s);
    if records.None? || records.value == [] then None else Some(records.value[|records.value| - 1])
  }

  /** `followup_owns_attempt`: an attempt without an intent is still the follow-up's. */
  function Owns(plan: Plan, st: Store, s: StageId, attempt: nat): Option<bool>
    requires ValidPlan(plan) && s in plan && attempt >= 1
  {
    if Key(s, attempt) !in st.intents then Some(true) else
    var contract := CommittedContract(plan, st, s, attempt);
    if contract.None? then None else Some(contract.value.followup.Some?)
  }

  /** The newest authenticated follow-up at or below an attempt that owns it; zero when there is none. */
  function OwningFollowup(plan: Plan, st: Store, s: StageId, from: nat): Option<nat>
    requires ValidPlan(plan) && s in plan
  {
    if from <= 1 then Some(0)
    else if Key(s, from) !in st.followups then OwningFollowup(plan, st, s, from - 1)
    else if FollowupDeps(plan, st, s, from).None? || Owns(plan, st, s, from).None? then None
    else if Owns(plan, st, s, from).value then Some(from)
    else OwningFollowup(plan, st, s, from - 1)
  }

  /** `_ordinary_retry_dependencies`: stay inside the dependency generation. */
  function OrdinaryDeps(plan: Plan, st: Store, s: StageId, attempt: nat, current: seq<JobId>): Option<seq<JobId>>
    requires ValidPlan(plan) && s in plan && attempt >= 2
  {
    if plan[s].dependsOn == [] then Some([]) else
    var records, owner := RecordsThrough(plan, st, s, attempt - 1), OwningFollowup(plan, st, s, attempt - 1);
    if records.None? || owner.None? then None else
    var latest := if records.value == [] then 0 else records.value[|records.value| - 1].key.attempt;
    if owner.value > latest && Key(s, owner.value) in st.followups then Some(st.followups[Key(s, owner.value)].deps)
    else if records.value != [] then Some(records.value[|records.value| - 1].deps)
    else Some(current)
  }

  datatype Authorization = Authorization(tasks: seq<TaskId>, deps: seq<JobId>)

  /** `derive_attempt_authorization` with the tasks put in array order, as the intent writes them. */
  function Derive(plan: Plan, st: Store, s: StageId, attempt: nat): Option<Authorization>
    requires ValidPlan(plan) && s in plan
  {
    var current := DependencyJobs(plan, st, s);
    if attempt == 0 || attempt > plan[s].bound || current.None? then None
    else if attempt == 1 then Some(Authorization(plan[s].tasks, current.value))
    else if plan[s].dependsOn != [] && Key(s, attempt) in st.followups then
      if FollowupDeps(plan, st, s, attempt) == Some(current.value) then Some(Authorization(plan[s].tasks, current.value)) else None
    else
      var tasks, deps := RetryTasks(plan, st, s, attempt), OrdinaryDeps(plan, st, s, attempt, current.value);
      if tasks.None? || deps.None? || !Selectable(plan[s], tasks.value) then None
      else Some(Authorization(Select(plan[s], tasks.value), deps.value))
  }

  /** The task set the preceding attempt leaves to a retry: its receipt's, else its rejection's. */
  function RetryTasks(plan: Plan, st: Store, s: StageId, attempt: nat): Option<seq<TaskId>>
    requires ValidPlan(plan) && s in plan && attempt >= 2
  {
    match ReadReceipt(plan, st, s, attempt - 1)
    case None => None
    case Some(Some(receipt)) => if receipt.decision == Retry then Some(receipt.retry) else None
    case Some(None) =>
      if Key(s, attempt - 1) in st.rejections && st.rejections[Key(s, attempt - 1)].key == Key(s, attempt - 1) then
        Some(st.rejections[Key(s, attempt - 1)].tasks)
      else None
  }

  /** `next_unrejected_attempt`: the last attempt of the rejection chain that starts after `after`. */
  function LastRejected(plan: Plan, st: Store, s: StageId, after: nat, expected: seq<TaskId>): Option<nat>
    requires ValidPlan(plan) && s in plan
    decreases plan[s].bound - after
  {
    if expected == [] || after >= plan[s].bound || Key(s, after + 1) !in st.rejections then Some(after)
    else
      var contract, rejection := CommittedContract(plan, st, s, after + 1), st.rejections[Key(s, after + 1)];
      if && contract.Some? && rejection.key == Key(s, after + 1)
         && rejection.tasks == expected && contract.value.tasks == expected
      then LastRejected(plan, st, s, after + 1, expected)
      else None
  }

  datatype Verdict = Success | Active | RetryTask | FailedTask

  /** `_reconcile_task` over the durable evidence: the first success, else the newest record's verdict. */
  function TaskVerdict(stage: Stage, st: Store, records: seq<Record>, t: TaskId): Option<Verdict> {
    if records == [] then Some(FailedTask) else
    var before, last := TaskVerdict(stage, st, records[..|records| - 1], t), records[|records| - 1];
    if before.None? || before.value == Success || t !in last.tasks then before
    else if TaskKey(last.key, t) !in st.evidence then Some(Active)
    else
      var e := st.evidence[TaskKey(last.key, t)];
      if !(e.key == last.key && e.task == t && e.job == last.job && Authentic(stage, e)) then None
      else Some(if e.successful then Success else if e.retryable then RetryTask else FailedTask)
  }

  type Verdicts = map<TaskId, Verdict>

  predicate Judged(stage: Stage, verdicts: Verdicts) { forall t | t in stage.tasks :: t in verdicts }

  /** The tasks of one category. */
  function Category(stage: Stage, verdicts: Verdicts, v: Verdict): set<TaskId> {
    set t | t in stage.tasks && t in verdicts && verdicts[t] == v
  }

  /** The retry set as the receipt and the rejection chain name it. */
  function Expected(stage: Stage, verdicts: Verdicts): seq<TaskId> { Sorted(stage, Category(stage, verdicts, RetryTask)) }

  /** The records of the latest owned generation. */
  function FromAttempt(records: seq<Record>, start: nat): seq<Record> {
    if records == [] then []
    else FromAttempt(records[..|records| - 1], start)
         + if records[|records| - 1].key.attempt >= start then [records[|records| - 1]] else []
  }

  /** What the current files say when every task succeeded. */
  datatype Files = Valid | Invalid | Untrusted

  /** The terminal receipt for the collected verdicts, with `last` the last attempt of the rejection chain. */
  function Decide(stage: Stage, s: StageId, verdicts: Verdicts, last: nat, files: Files): Option<Receipt> {
    var retryable, failed := Category(stage, verdicts, RetryTask), Category(stage, verdicts, FailedTask);
    if || !Judged(stage, verdicts) || Category(stage, verdicts, Active) != {}
       || (failed == {} && retryable == {} && files == Untrusted)
    then None
    else
      var successful, key := Sorted(stage, Category(stage, verdicts, Success)), Key(s, last);
      Some(
        if failed != {} || (retryable != {} && last + 1 > stage.bound) then
          Receipt(key, Failed, successful, [], Sorted(stage, failed + retryable), false)
        else if retryable != {} then Receipt(key, Retry, successful, Sorted(stage, retryable), [], false)
        else Receipt(key, if files == Valid then Complete else Failed, successful, [], [], files != Valid))
  }

  /** All verdicts of one reading; `None` where some evidence is out of place. */
  function Judge(stage: Stage, st: Store, records: seq<Record>): Option<Verdicts> {
    if exists t | t in stage.tasks :: TaskVerdict(stage, st, records, t).None? then None
    else Some(map t | t in stage.tasks :: TaskVerdict(stage, st, records, t).value)
  }

  /** The decision about one generation when the whole of it is read at once. */
  function DecideNow(plan: Plan, st: Store, s: StageId, records: seq<Record>, files: Files): Option<Receipt>
    requires ValidPlan(plan) && s in plan && records != []
  {
    var verdicts := Judge(plan[s], st, records);
    if verdicts.None? then None else
    var last := LastRejected(plan, st, s, records[|records| - 1].key.attempt, Expected(plan[s], verdicts.value));
    if last.None? then None else Decide(plan[s], s, verdicts.value, last.value, files)
  }

  /** A reconciliation that reads everything at once. */
  function Reconcile(plan: Plan, st: Store, s: StageId, records: seq<Record>, files: Files): Option<Receipt>
    requires ValidPlan(plan) && s in plan
  {
    var start := OwningFollowup(plan, st, s, plan[s].bound);
    if start.None? || FromAttempt(records, start.value) == [] then None
    else DecideNow(plan, st, s, FromAttempt(records, start.value), files)
  }
}
