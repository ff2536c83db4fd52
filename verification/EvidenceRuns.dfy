/**
  Left undisturbed, the many reads of a derivation or a reconciliation come to what reading
  everything at once comes to: each derived value is reached by steps of the protocol.
*/
module EvidenceRuns {
  import opened Options
  import opened EvidenceStore
  import opened EvidenceReader
  import opened EvidenceEngine
  import opened EvidenceProtocol

  ghost predicate Reachable(plan: Plan, x: State)
    requires ValidPlan(plan)
  {
    exists states, steps :: IsTimelyRun(plan, states, steps) && states[|steps|] == x
  }

  lemma ReachInit(plan: Plan)
    requires ValidPlan(plan)
    ensures Reachable(plan, Init)
  {
    assert IsTimelyRun(plan, [Init], []);
  }

  lemma Reach(plan: Plan, x: State, y: State, step: Step)
    requires ValidPlan(plan) && Reachable(plan, x) && Next(plan, x, y, step) && TimelyStep(plan, step)
    ensures Reachable(plan, y)
  {
    var states, steps :| IsTimelyRun(plan, states, steps) && states[|steps|] == x;
    hide Next, ValidPlan, TimelyStep;
    assert IsTimelyRun(plan, states + [y], steps + [step]);
  }

  lemma ReachRead(plan: Plan, x: State, y: State, read: Read)
    requires ValidPlan(plan) && Reachable(plan, x) && Reads(plan, x, y, read)
    ensures Reachable(plan, y)
  {
    hide Reachable, Reads, ValidPlan;
    Reach(plan, x, y, Reading(read));
  }

  /** Only what is pending may have grown. */
  predicate SameStore(x: State, y: State) { y.store == x.store && x.intents <= y.intents && x.receipts <= y.receipts }

  // ------------------------------------------------------------- derivations

  /** The latest jobs of the first `n` prerequisites are gathered one after another. */
  lemma {:induction false} JobsGathered(plan: Plan, x: State, s: StageId, n: nat) returns (y: State)
    requires ValidPlan(plan) && Reachable(plan, x) && s in plan && DependencyJobs(plan, x.store, s).Some?
    requires n <= |plan[s].dependsOn|
    ensures |DependencyJobs(plan, x.store, s).value| == |plan[s].dependsOn|
    ensures Reachable(plan, y) && SameStore(x, y) && UnderWay(y, Gathering(s, DependencyJobs(plan, x.store, s).value[..n]))
  {
    hide Reachable, LatestRecord;
    y := x;
    if n > 0 {
      y := JobsGathered(plan, x, s, n - 1);
      var jobs := DependencyJobs(plan, x.store, s).value;
      var g, h := Gathering(s, jobs[..n - 1]), Gathering(s, jobs[..n]);
      assert jobs[..n] == jobs[..n - 1] + [jobs[n - 1]];
      assert plan[s].dependsOn[n - 1] in plan[s].dependsOn;
      assert Gathers(plan, y.store, g, h);
      hide ValidPlan, Gathers, DependencyJobs;
      var z := y.(gathered := y.gathered + {h});
      ReachRead(plan, y, z, GatherJob(g, h));
      y := z;
    }
  }

  lemma AllGathered(plan: Plan, x: State, s: StageId) returns (y: State)
    requires ValidPlan(plan) && Reachable(plan, x) && s in plan && DependencyJobs(plan, x.store, s).Some?
    ensures Reachable(plan, y) && SameStore(x, y) && Gathered(plan, y, s, DependencyJobs(plan, x.store, s).value)
  {
    hide Reachable, ValidPlan, DependencyJobs, UnderWay;
    y := JobsGathered(plan, x, s, |plan[s].dependsOn|);
    var jobs := DependencyJobs(plan, x.store, s).value;
    assert jobs[..|jobs|] == jobs;
  }

  lemma DraftOpened(plan: Plan, x: State, d: Draft) returns (y: State)
    requires ValidPlan(plan) && Reachable(plan, x) && d.Opened? && d.key.stage in plan && 1 <= d.key.attempt <= plan[d.key.stage].bound
    requires DependencyJobs(plan, x.store, d.key.stage) == Some(d.current)
    ensures Reachable(plan, y) && SameStore(x, y) && d in y.drafts
  {
    hide Reachable, ValidPlan, Gathered, DependencyJobs;
    y := AllGathered(plan, x, d.key.stage);
    var z := y.(drafts := y.drafts + {d});
    ReachRead(plan, y, z, OpenDraft(d));
    y := z;
  }

  lemma DraftMoved(plan: Plan, x: State, d: Draft, e: Draft) returns (y: State)
    requires ValidPlan(plan) && Reachable(plan, x) && d in x.drafts && Moves(plan, x.store, d, e)
    ensures Reachable(plan, y) && SameStore(x, y) && e in y.drafts
  {
    hide Reachable, ValidPlan, Moves;
    y := x.(drafts := x.drafts + {e});
    ReachRead(plan, x, y, MoveDraft(d, e));
  }

  lemma DraftEnded(plan: Plan, x: State, d: Draft, i: Intent) returns (y: State)
    requires ValidPlan(plan) && Reachable(plan, x) && d in x.drafts && Ends(plan, x.store, d, i)
    ensures Reachable(plan, y) && SameStore(x, y) && i in y.intents
  {
    hide Reachable, ValidPlan, Ends;
    y := x.(intents := x.intents + {i});
    ReachRead(plan, x, y, EndDraft(d, i));
  }

  /** The downward scan of a draft ends at the owning follow-up, or below all. */
  lemma {:induction false} DraftScanned(plan: Plan, x: State, d: Draft) returns (y: State, e: Draft)
    requires ValidPlan(plan) && Reachable(plan, x) && d in x.drafts && d.Scanning? && d.key.stage in plan
    requires OwningFollowup(plan, x.store, d.key.stage, d.next).Some?
    ensures Reachable(plan, y) && SameStore(x, y) && e in y.drafts && e.Scanning? && e == d.(next := e.next)
    ensures var o := OwningFollowup(plan, x.store, d.key.stage, d.next).value;
      if o == 0 then e.next <= 1 else
        e.next == o > 1 && Key(d.key.stage, o) in x.store.followups && FollowupDeps(plan, x.store, d.key.stage, o).Some?
        && Owns(plan, x.store, d.key.stage, o) == Some(true)
    decreases d.next
  {
    hide Reachable, ValidPlan, FollowupDeps, Owns;
    var s := d.key.stage;
    if d.next <= 1 || (Key(s, d.next) in x.store.followups && Owns(plan, x.store, s, d.next) == Some(true)) {
      y, e := x, d;
    } else {
      var next := d.(next := d.next - 1);
      y := DraftMoved(plan, x, d, next);
      y, e := DraftScanned(plan, y, next);
    }
  }

  lemma TasksFound(plan: Plan, x: State, d: Draft) returns (y: State, e: Draft)
    requires ValidPlan(plan) && Reachable(plan, x) && d in x.drafts && d.Opened? && d.key.stage in plan && d.key.attempt >= 2
    requires !Claimed(plan, x.store, d.key) && RetryTasks(plan, x.store, d.key.stage, d.key.attempt).Some?
    requires Selectable(plan[d.key.stage], RetryTasks(plan, x.store, d.key.stage, d.key.attempt).value)
    ensures Reachable(plan, y) && SameStore(x, y) && e in y.drafts
    ensures e == Tasked(d.key, d.current, Select(plan[d.key.stage], RetryTasks(plan, x.store, d.key.stage, d.key.attempt).value))
  {
    hide Reachable, ValidPlan, ReadReceipt, Selectable, Select, Claimed;
    var s, a := d.key.stage, d.key.attempt;
    e := Tasked(d.key, d.current, Select(plan[s], RetryTasks(plan, x.store, s, a).value));
    if ReadReceipt(plan, x.store, s, a - 1).value.Some? {
      y := DraftMoved(plan, x, d, e);
    } else {
      y := DraftMoved(plan, x, d, Unreceipted(d.key, d.current));
      y := DraftMoved(plan, y, Unreceipted(d.key, d.current), e);
    }
  }

  /** Whatever `derive_attempt_authorization` derives at one moment, steps of the protocol derive. */
  lemma DerivationReached(plan: Plan, x: State, s: StageId, a: nat) returns (y: State)
    requires ValidPlan(plan) && Reachable(plan, x) && s in plan && Derive(plan, x.store, s, a).Some?
    ensures Reachable(plan, y) && SameStore(x, y)
    ensures var auth := Derive(plan, x.store, s, a).value; Intent(Key(s, a), auth.tasks, auth.deps) in y.intents
  {
    hide Reachable, ValidPlan, DependencyJobs, FollowupDeps, RetryTasks, OrdinaryDeps, Selectable, Select;
    var st, auth := x.store, Derive(plan, x.store, s, a).value;
    var d, i := Opened(Key(s, a), DependencyJobs(plan, st, s).value), Intent(Key(s, a), auth.tasks, auth.deps);
    y := DraftOpened(plan, x, d);
    if a == 1 || Claimed(plan, st, d.key) {
      y := DraftEnded(plan, y, d, i);
    } else {
      var e: Draft;
      y, e := TasksFound(plan, y, d);
      y := RetryEnded(plan, y, e, i);
    }
  }

  lemma RetryEnded(plan: Plan, x: State, d: Draft, i: Intent) returns (y: State)
    requires ValidPlan(plan) && Reachable(plan, x) && d in x.drafts && d.Tasked? && d.key.stage in plan && d.key.attempt >= 2
    requires i.key == d.key && i.tasks == d.tasks && OrdinaryDeps(plan, x.store, d.key.stage, d.key.attempt, d.current) == Some(i.deps)
    ensures Reachable(plan, y) && SameStore(x, y) && i in y.intents
  {
    hide Reachable, ValidPlan, RecordsThrough, OwningFollowup, Owns, FollowupDeps;
    var s, a := d.key.stage, d.key.attempt;
    if plan[s].dependsOn == [] {
      y := DraftEnded(plan, x, d, i);
    } else {
      var records := RecordsThrough(plan, x.store, s, a - 1).value;
      var e := Scanning(d.key, d.current, d.tasks, if records == [] then None else Some(records[|records| - 1]), a - 1);
      y := DraftMoved(plan, x, d, e);
      y, e := DraftScanned(plan, y, e);
      y := DraftEnded(plan, y, e, i);
    }
  }

  // --------------------------------------------------------- reconciliations

  lemma SnapshotAdded(plan: Plan, x: State, n: Snapshot, read: Read) returns (y: State)
    requires ValidPlan(plan) && Reachable(plan, x) && Reads(plan, x, x.(snapshots := x.snapshots + {n}), read)
    ensures Reachable(plan, y) && SameStore(x, y) && n in y.snapshots
  {
    hide Reachable, ValidPlan, Reads;
    y := x.(snapshots := x.snapshots + {n});
    ReachRead(plan, x, y, read);
  }

  lemma InquiryAdded(plan: Plan, x: State, q: Inquiry, read: Read) returns (y: State)
    requires ValidPlan(plan) && Reachable(plan, x) && Reads(plan, x, x.(inquiries := x.inquiries + {q}), read)
    ensures Reachable(plan, y) && SameStore(x, y) && q in y.inquiries
  {
    hide Reachable, ValidPlan, Reads;
    y := x.(inquiries := x.inquiries + {q});
    ReachRead(plan, x, y, read);
  }

  lemma {:induction false} SnapshotScanned(plan: Plan, x: State, n: Snapshot) returns (y: State, m: Snapshot)
    requires ValidPlan(plan) && Reachable(plan, x) && n in x.snapshots && n.stage in plan
    requires OwningFollowup(plan, x.store, n.stage, n.next).Some?
    ensures Reachable(plan, y) && SameStore(x, y) && m in y.snapshots && m == n.(next := m.next)
    ensures var o := OwningFollowup(plan, x.store, n.stage, n.next).value;
      if o == 0 then m.next <= 1 else
        m.next == o > 1 && Key(n.stage, o) in x.store.followups && FollowupDeps(plan, x.store, n.stage, o).Some?
        && Owns(plan, x.store, n.stage, o) == Some(true)
    decreases n.next
  {
    hide Reachable, ValidPlan, FollowupDeps, Owns;
    var s := n.stage;
    if n.next <= 1 || (Key(s, n.next) in x.store.followups && Owns(plan, x.store, s, n.next) == Some(true)) {
      y, m := x, n;
    } else {
      var next := n.(next := n.next - 1);
      y := SnapshotAdded(plan, x, next, PassFollowup(n, next));
      y, m := SnapshotScanned(plan, y, next);
    }
  }

  /** The first `k` tasks judged one after another. */
  function Sofar(stage: Stage, st: Store, records: seq<Record>, k: nat): Verdicts
    requires k <= |stage.tasks| && Judge(stage, st, records).Some?
  {
    map t | t in stage.tasks[..k] :: Judge(stage, st, records).value[t]
  }

  lemma SofarGrows(stage: Stage, st: Store, records: seq<Record>, k: nat)
    requires k < |stage.tasks| && Judge(stage, st, records).Some?
    ensures Sofar(stage, st, records, k + 1) == Sofar(stage, st, records, k)[stage.tasks[k] := Judge(stage, st, records).value[stage.tasks[k]]]
  {
    assert stage.tasks[..k + 1] == stage.tasks[..k] + [stage.tasks[k]];
  }

  lemma {:induction false} TasksJudged(plan: Plan, x: State, q: Inquiry, k: nat) returns (y: State)
    requires ValidPlan(plan) && Reachable(plan, x) && q.stage in plan && q.records != [] && q.last == q.records[|q.records| - 1].key.attempt
    requires k <= |plan[q.stage].tasks| && Judge(plan[q.stage], x.store, q.records).Some?
    requires q.verdicts == Sofar(plan[q.stage], x.store, q.records, k) && q in x.inquiries
    ensures Reachable(plan, y) && SameStore(x, y)
    ensures q.(verdicts := Judge(plan[q.stage], x.store, q.records).value) in y.inquiries
    decreases |plan[q.stage].tasks| - k
  {
    hide Reachable, ValidPlan, TaskVerdict;
    var stage := plan[q.stage];
    if k == |stage.tasks| {
      assert stage.tasks[..k] == stage.tasks;
      assert q.verdicts == Judge(stage, x.store, q.records).value;
      y := x;
    } else {
      var t := stage.tasks[k];
      assert t in stage.tasks;
      SofarGrows(stage, x.store, q.records, k);
      var r := q.(verdicts := Sofar(stage, x.store, q.records, k + 1));
      y := InquiryAdded(plan, x, r, JudgeTask(q, r, t));
      y := TasksJudged(plan, y, r, k + 1);
    }
  }

  lemma {:induction false} ChainFollowed(plan: Plan, x: State, q: Inquiry) returns (y: State, r: Inquiry)
    requires ValidPlan(plan) && Reachable(plan, x) && q in x.inquiries && q.stage in plan && Judged(plan[q.stage], q.verdicts)
    requires LastRejected(plan, x.store, q.stage, q.last, Expected(plan[q.stage], q.verdicts)).Some?
    ensures Reachable(plan, y) && SameStore(x, y) && r in y.inquiries
    ensures var expected := Expected(plan[q.stage], q.verdicts);
      && r == q.(last := LastRejected(plan, x.store, q.stage, q.last, expected).value)
      && (expected == [] || r.last >= plan[q.stage].bound || Key(q.stage, r.last + 1) !in x.store.rejections)
    decreases plan[q.stage].bound - q.last
  {
    hide Reachable, ValidPlan, CommittedContract, Expected;
    var s, expected := q.stage, Expected(plan[q.stage], q.verdicts);
    if expected == [] || q.last >= plan[s].bound || Key(s, q.last + 1) !in x.store.rejections {
      y, r := x, q;
    } else {
      var next := q.(last := q.last + 1);
      y := InquiryAdded(plan, x, next, AdvanceChain(q, next));
      y, r := ChainFollowed(plan, y, next);
    }
  }

  /** Whatever a reconciliation decides at one moment, steps of the protocol decide. */
  lemma ReconciliationReached(plan: Plan, x: State, s: StageId, files: Files) returns (y: State)
    requires ValidPlan(plan) && Reachable(plan, x) && s in plan && AllRecords(plan, x.store, s).Some?
    requires Reconcile(plan, x.store, s, AllRecords(plan, x.store, s).value, files).Some?
    ensures Reachable(plan, y) && SameStore(x, y)
    ensures Reconcile(plan, x.store, s, AllRecords(plan, x.store, s).value, files).value in y.receipts
  {
    hide Reachable, ValidPlan, AllRecords, OwningFollowup, FromAttempt, DecideNow, Owns, FollowupDeps;
    var n := Snapshot(s, AllRecords(plan, x.store, s).value, plan[s].bound);
    y := SnapshotAdded(plan, x, n, TakeSnapshot(n));
    var m: Snapshot;
    y, m := SnapshotScanned(plan, y, n);
    var o := OwningFollowup(plan, x.store, s, plan[s].bound).value;
    var kept := FromAttempt(n.records, o);
    var q := Inquiry(s, kept, map[], kept[|kept| - 1].key.attempt);
    y := InquiryAdded(plan, y, q, SettleGeneration(m, q));
    y := DecisionReached(plan, y, q, files);
  }

  lemma DecisionReached(plan: Plan, x: State, q: Inquiry, files: Files) returns (y: State)
    requires ValidPlan(plan) && Reachable(plan, x) && q in x.inquiries && q.stage in plan && q.records != []
    requires q == Inquiry(q.stage, q.records, map[], q.records[|q.records| - 1].key.attempt)
    requires DecideNow(plan, x.store, q.stage, q.records, files).Some?
    ensures Reachable(plan, y) && SameStore(x, y) && DecideNow(plan, x.store, q.stage, q.records, files).value in y.receipts
  {
    hide Reachable, ValidPlan, TaskVerdict, LastRejected, Expected, Decide;
    var s, stage := q.stage, plan[q.stage];
    assert Sofar(stage, x.store, q.records, 0) == map[];
    y := TasksJudged(plan, x, q, 0);
    var r := q.(verdicts := Judge(stage, x.store, q.records).value);
    y, r := ChainFollowed(plan, y, r);
    var receipt := Decide(stage, s, r.verdicts, r.last, files).value;
    var z := y.(receipts := y.receipts + {receipt});
    ReachRead(plan, y, z, DeriveReceipt(r, files, receipt));
    y := z;
  }

  // ------------------------------------------------------------ publications

  lemma IntentPublished(plan: Plan, x: State, i: Intent) returns (y: State)
    requires ValidPlan(plan) && Reachable(plan, x) && i in x.intents && i.key !in x.store.intents
    ensures Reachable(plan, y) && y == x.(store := x.store.(intents := x.store.intents[i.key := i]))
  {
    hide Reachable, ValidPlan;
    y := x.(store := x.store.(intents := x.store.intents[i.key := i]));
    Reach(plan, x, y, PublishIntent(i));
  }

  lemma RecordPublished(plan: Plan, x: State, key: Key, job: JobId) returns (y: State)
    requires ValidPlan(plan) && Reachable(plan, x) && key in x.store.intents && key !in x.store.records && key !in x.store.rejections
    requires forall k | k in x.store.records :: x.store.records[k].job != job
    ensures Reachable(plan, y)
    ensures var i := x.store.intents[key];
      y == x.(store := x.store.(records := x.store.records[key := Record(key, job, i.tasks, i.deps)]))
  {
    hide Reachable, ValidPlan;
    var i := x.store.intents[key];
    y := x.(store := x.store.(records := x.store.records[key := Record(key, job, i.tasks, i.deps)]));
    Reach(plan, x, y, PublishRecord(key, job));
  }

  lemma RejectionPublished(plan: Plan, x: State, key: Key) returns (y: State)
    requires ValidPlan(plan) && Reachable(plan, x) && key in x.store.intents && key !in x.store.records && key !in x.store.rejections
    ensures Reachable(plan, y)
    ensures y == x.(store := x.store.(rejections := x.store.rejections[key := Rejection(key, x.store.intents[key].tasks)]))
  {
    hide Reachable, ValidPlan;
    y := x.(store := x.store.(rejections := x.store.rejections[key := Rejection(key, x.store.intents[key].tasks)]));
    Reach(plan, x, y, PublishRejection(key));
  }

  lemma ReceiptPublished(plan: Plan, x: State, r: Receipt) returns (y: State)
    requires ValidPlan(plan) && Reachable(plan, x) && r in x.receipts && r.key !in x.store.receipts
    ensures Reachable(plan, y) && y == x.(store := x.store.(receipts := x.store.receipts[r.key := r]))
  {
    hide Reachable, ValidPlan;
    y := x.(store := x.store.(receipts := x.store.receipts[r.key := r]));
    Reach(plan, x, y, PublishReceipt(r));
  }

  /** A task of an accepted attempt fails in a way the signed policy retries. */
  const Failing := Raw("FAILED", Some(1), false)

  lemma FailureWritten(plan: Plan, x: State, key: Key, t: TaskId) returns (y: State)
    requires ValidPlan(plan) && Reachable(plan, x) && key.stage in plan && "FAILED" in plan[key.stage].policy.states
    requires key in x.store.records && t in x.store.records[key].tasks && TaskKey(key, t) !in x.store.evidence
    ensures Reachable(plan, y)
    ensures y == x.(store := x.store.(evidence :=
              x.store.evidence[TaskKey(key, t) := Evidence(key, t, x.store.records[key].job, Failing, false, true)]))
  {
    hide Reachable, ValidPlan;
    FailureIsRetryable(plan[key.stage]);
    y := x.(store := x.store.(evidence := x.store.evidence[TaskKey(key, t) := Evidence(key, t, x.store.records[key].job, Failing, false, true)]));
    Reach(plan, x, y, WriteEvidence(key, t, Failing));
  }

  lemma FailureIsRetryable(stage: Stage)
    requires "FAILED" in stage.policy.states
    ensures Conclusive(Failing) && !Successful(Failing) && Retryable(stage.policy, Failing)
  {
    assert Failing.state[0] == 'F' && "COMPLETED"[0] == 'C';
  }
}
