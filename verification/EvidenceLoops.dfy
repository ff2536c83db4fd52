/**
  The loops of the evidence reader and of reconciliation, each proved against the function
  that the rest of the model reasons about.
*/
module EvidenceLoops {
  import opened Options
  import opened EvidenceStore
  import opened EvidenceReader
  import opened EvidenceEngine
  import opened EvidenceReconciliation

  lemma {:induction false} RefusalStays(plan: Plan, st: Store, s: StageId, k: nat, upper: nat)
    requires ValidPlan(plan) && s in plan && k <= upper && RecordsUpTo(plan, st, s, k).None?
    ensures RecordsUpTo(plan, st, s, upper).None?
    decreases upper
  {
    if k < upper { RefusalStays(plan, st, s, k, upper - 1); }
  }

  /** `read_plan_submission_records`. */
  method ReadRecords(plan: Plan, st: Store, s: StageId, through: nat) returns (r: Option<seq<Record>>)
    requires ValidPlan(plan) && s in plan
    ensures r == RecordsThrough(plan, st, s, through)
  {
    hide ValidPlan, RecordAccepted;
    var upper := if through == 0 || through > plan[s].bound then plan[s].bound else through;
    var records: seq<Record> := [];
    var attempt := 0;
    while attempt < upper
      invariant 0 <= attempt <= upper
      invariant RecordsUpTo(plan, st, s, attempt) == Some(records)
    {
      attempt := attempt + 1;
      if Key(s, attempt) !in st.records { continue; }
      if !RecordAccepted(plan, st, s, attempt) {
        RefusalStays(plan, st, s, attempt, upper);
        return None;
      }
      records := records + [st.records[Key(s, attempt)]];
    }
    return Some(records);
  }

  /** `next_unrejected_attempt`: the next attempt and the attempts it passed over. */
  method NextUnrejected(plan: Plan, st: Store, s: StageId, after: nat, expected: seq<TaskId>) returns (r: Option<nat>, rejected: seq<nat>)
    requires ValidPlan(plan) && s in plan
    ensures r.Some? <==> LastRejected(plan, st, s, after, expected).Some?
    ensures r.Some? ==> r.value == LastRejected(plan, st, s, after, expected).value + 1
    ensures r.Some? ==> |rejected| == r.value - after - 1 && forall i | 0 <= i < |rejected| :: rejected[i] == after + 1 + i
  {
    hide ValidPlan, CommittedContract;
    rejected := [];
    var attempt := after + 1;
    if expected == [] { return Some(attempt), []; }
    while attempt <= plan[s].bound
      invariant after + 1 <= attempt && (attempt <= plan[s].bound + 1 || attempt == after + 1)
      invariant LastRejected(plan, st, s, attempt - 1, expected) == LastRejected(plan, st, s, after, expected)
      invariant |rejected| == attempt - after - 1 && forall i | 0 <= i < |rejected| :: rejected[i] == after + 1 + i
    {
      if Key(s, attempt) !in st.rejections { break; }
      var contract, rejection := CommittedContract(plan, st, s, attempt), st.rejections[Key(s, attempt)];
      if contract.None? || rejection.key != Key(s, attempt) || rejection.tasks != expected || contract.value.tasks != expected {
        return None, [];
      }
      rejected := rejected + [attempt];
      attempt := attempt + 1;
    }
    return Some(attempt), rejected;
  }

  /** `latest_followup_attempt`, and the downward scan of `_ordinary_retry_dependencies`. */
  method ScanFollowups(plan: Plan, st: Store, s: StageId, from: nat) returns (r: Option<nat>)
    requires ValidPlan(plan) && s in plan
    ensures r == OwningFollowup(plan, st, s, from)
  {
    hide ValidPlan, FollowupDeps, Owns;
    var candidate := from;
    while candidate > 1
      invariant OwningFollowup(plan, st, s, candidate) == OwningFollowup(plan, st, s, from)
    {
      if Key(s, candidate) in st.followups {
        var owns := Owns(plan, st, s, candidate);
        if FollowupDeps(plan, st, s, candidate).None? || owns.None? { return None; }
        if owns.value { return Some(candidate); }
      }
      candidate := candidate - 1;
    }
    return Some(0);
  }

  lemma {:induction false} VerdictStays(stage: Stage, st: Store, records: seq<Record>, n: nat, t: TaskId)
    requires n <= |records|
    requires TaskVerdict(stage, st, records[..n], t) in {None, Some(Success)}
    ensures TaskVerdict(stage, st, records, t) == TaskVerdict(stage, st, records[..n], t)
    decreases |records|
  {
    if n < |records| {
      var init := records[..|records| - 1];
      assert init[..n] == records[..n];
      VerdictStays(stage, st, init, n, t);
    } else {
      assert records[..n] == records;
    }
  }

  /** `_reconcile_task` over durable evidence: a success ends the loop, otherwise the last verdict stands. */
  method ReconcileTask(stage: Stage, st: Store, records: seq<Record>, t: TaskId) returns (r: Option<Verdict>)
    ensures r == TaskVerdict(stage, st, records, t)
  {
    hide Authentic;
    var latest := FailedTask;
    var i := 0;
    while i < |records|
      invariant 0 <= i <= |records|
      invariant latest != Success && TaskVerdict(stage, st, records[..i], t) == Some(latest)
    {
      var record := records[i];
      i := i + 1;
      assert records[..i][..i - 1] == records[..i - 1];
      if t !in record.tasks { continue; }
      if TaskKey(record.key, t) !in st.evidence {
        latest := Active;
        continue;
      }
      var e := st.evidence[TaskKey(record.key, t)];
      if !(e.key == record.key && e.task == t && e.job == record.job && Authentic(stage, e)) {
        VerdictStays(stage, st, records, i, t);
        return None;
      }
      if e.successful {
        VerdictStays(stage, st, records, i, t);
        return Some(Success);
      }
      latest := if e.retryable then RetryTask else FailedTask;
    }
    assert records[..i] == records;
    return Some(latest);
  }

  lemma KeepStep(ids: seq<TaskId>, i: nat, chosen: set<TaskId>)
    requires i < |ids|
    ensures Keep(ids[..i + 1], chosen) == Keep(ids[..i], chosen) + if ids[i] in chosen then [ids[i]] else []
  {
    assert ids[..i + 1][..i] == ids[..i];
  }

  /** The classification loop of `_reconcile_stage_claimed`; `ok` is false where it raises. */
  method Classify(plan: Plan, s: StageId, st: Store, records: seq<Record>)
    returns (ok: bool, ghost verdicts: Verdicts, successful: seq<TaskId>, retryable: seq<TaskId>, failed: seq<TaskId>, active: seq<TaskId>)
    requires ValidPlan(plan) && s in plan
    ensures ok <==> Judge(plan[s], st, records).Some?
    ensures ok ==> verdicts == Judge(plan[s], st, records).value
    ensures ok ==> successful == Sorted(plan[s], Category(plan[s], verdicts, Success))
    ensures ok ==> retryable == Sorted(plan[s], Category(plan[s], verdicts, RetryTask))
    ensures ok ==> failed == Sorted(plan[s], Category(plan[s], verdicts, FailedTask))
    ensures ok ==> active == Sorted(plan[s], Category(plan[s], verdicts, Active))
  {
    hide TaskVerdict;
    var stage := plan[s];
    verdicts := if Judge(stage, st, records).Some? then Judge(stage, st, records).value else map[];
    ghost var wins, retries, fails, actives := Category(stage, verdicts, Success), Category(stage, verdicts, RetryTask),
                                               Category(stage, verdicts, FailedTask), Category(stage, verdicts, Active);
    successful, retryable, failed, active := [], [], [], [];
    var i := 0;
    while i < |stage.byId|
      invariant 0 <= i <= |stage.byId|
      invariant forall j | 0 <= j < i :: TaskVerdict(stage, st, records, stage.byId[j]).Some?
      invariant Judge(stage, st, records).Some? ==>
        && successful == Keep(stage.byId[..i], wins) && retryable == Keep(stage.byId[..i], retries)
        && failed == Keep(stage.byId[..i], fails) && active == Keep(stage.byId[..i], actives)
    {
      var t := stage.byId[i];
      assert t in stage.byId && t in stage.tasks;
      KeepStep(stage.byId, i, wins);
      KeepStep(stage.byId, i, retries);
      KeepStep(stage.byId, i, fails);
      KeepStep(stage.byId, i, actives);
      var verdict := ReconcileTask(stage, st, records, t);
      if verdict.None? { return false, map[], [], [], [], []; }
      match verdict.value {
        case Success => successful := successful + [t];
        case Active => active := active + [t];
        case RetryTask => retryable := retryable + [t];
        case FailedTask => failed := failed + [t];
      }
      i := i + 1;
    }
    assert stage.byId[..i] == stage.byId;
    ok := true;
    forall t | t in stage.tasks ensures TaskVerdict(stage, st, records, t).Some? {
      assert t in stage.byId;
    }
  }

  lemma SortedCategory(plan: Plan, s: StageId, verdicts: Verdicts, v: Verdict)
    requires ValidPlan(plan) && s in plan
    ensures Members(Sorted(plan[s], Category(plan[s], verdicts, v))) == Category(plan[s], verdicts, v)
    ensures Sorted(plan[s], Category(plan[s], verdicts, v)) == [] <==> Category(plan[s], verdicts, v) == {}
  {
    hide ValidPlan, Sorted;
    var chosen := Category(plan[s], verdicts, v);
    SortedMeans(plan, s, chosen);
    NothingSorted(plan[s]);
    assert forall t :: t in Members(Sorted(plan[s], chosen)) <==> t in chosen;
    assert Members(Sorted(plan[s], chosen)) == chosen;
    if t :| t in chosen { assert t in Sorted(plan[s], chosen); }
  }

  /** The decision of `_reconcile_stage_claimed`, from its loops. */
  method DecideStage(plan: Plan, st: Store, s: StageId, records: seq<Record>, files: Files) returns (r: Option<Receipt>)
    requires ValidPlan(plan) && s in plan && records != []
    ensures r == DecideNow(plan, st, s, records, files)
  {
    hide ValidPlan, TaskVerdict, Sorted, Category, LastRejected;
    var stage := plan[s];
    var ok, verdicts, successful, retryable, failed, active := Classify(plan, s, st, records);
    if !ok { return None; }
    SortedCategory(plan, s, verdicts, RetryTask);
    SortedCategory(plan, s, verdicts, FailedTask);
    SortedCategory(plan, s, verdicts, Active);
    var next, rejected := NextUnrejected(plan, st, s, records[|records| - 1].key.attempt, retryable);
    if next.None? || active != [] { return None; }
    var key := Key(s, next.value - 1);
    if failed != [] || (retryable != [] && next.value > stage.bound) {
      return Some(Receipt(key, Failed, successful, [], Sorted(stage, Members(failed) + Members(retryable)), false));
    } else if retryable != [] {
      return Some(Receipt(key, Retry, successful, retryable, [], false));
    } else if files == Untrusted {
      return None;
    }
    return Some(Receipt(key, if files == Valid then Complete else Failed, successful, [], [], files != Valid));
  }
}
