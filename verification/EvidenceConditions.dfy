/**
  The two conditions the evidence theorems rest on. Where the two task orders disagree, a run of
  the engine reaches a store that its own strict readers refuse; and they accept everything in a
  store if and only if every follow-up was published with its trigger in its slot.
*/
module EvidenceConditions {
  import opened Options
  import opened EvidenceStore
  import opened EvidenceReader
  import opened EvidenceInvariant
  import opened EvidenceAuthentication
  import opened EvidenceEngine
  import opened EvidenceProtocol
  import opened EvidenceDerivation
  import opened EvidenceRuns
  import opened EvidenceProgress
  import EvidenceReconciliation
  import EvidenceLoops
  import EvidenceSafety

  /**
    An ordinary retry's intent, written in array order, is accepted if and only if the
    receipt's task-ID order reads back unchanged; otherwise a record at that attempt makes the
    whole stage unreadable.
  */
  lemma RetryAcceptedIffOrdered(plan: Plan, st: Store, s: StageId, a: nat)
    requires ValidPlan(plan) && s in plan && a >= 2 && Key(s, a) !in st.followups
    requires ReadReceipt(plan, st, s, a - 1).Some? && ReadReceipt(plan, st, s, a - 1).value.Some?
    requires ReadReceipt(plan, st, s, a - 1).value.value.decision == Retry
    requires Key(s, a) in st.intents && st.intents[Key(s, a)].key == Key(s, a)
    requires var retry := ReadReceipt(plan, st, s, a - 1).value.value.retry;
             st.intents[Key(s, a)].tasks == Select(plan[s], retry)
    ensures var retry := ReadReceipt(plan, st, s, a - 1).value.value.retry;
      && (CommittedContract(plan, st, s, a).Some? <==> Select(plan[s], retry) == retry)
      && (Select(plan[s], retry) != retry && Key(s, a) in st.records ==>
            forall upper: nat | a <= upper :: RecordsUpTo(plan, st, s, upper).None?)
  {
    hide ValidPlan, ReadReceipt, Select;
    if CommittedContract(plan, st, s, a).None? && Key(s, a) in st.records {
      forall upper: nat | a <= upper ensures RecordsUpTo(plan, st, s, upper).None? {
        EvidenceLoops.RefusalStays(plan, st, s, a, upper);
      }
    }
  }

  /** A job of an accepted attempt above `above`, within the stage's bound. */
  ghost predicate Accepted(plan: Plan, st: Store, d: StageId, job: JobId, above: nat)
    requires d in plan
  {
    exists k: nat :: above < k <= plan[d].bound && Recorded(st, d, k) && st.records[Key(d, k)].job == job
  }

  /** One slot passes exactly when its job is accepted once and, in the trigger's slot, is the trigger and a retry. */
  lemma SlotIff(plan: Plan, st: Store, f: Followup, d: StageId, job: JobId)
    requires RecordsOk(st) && d in plan && Accepted(plan, st, d, job, 0)
    ensures SlotAccepted(Records(st, d, plan[d].bound), f, d, job)
       <==> (d == f.triggerStage ==> job == f.triggerJob && Accepted(plan, st, d, job, 1))
  {
    var all := Records(st, d, plan[d].bound);
    var k: nat :| 0 < k <= plan[d].bound && Recorded(st, d, k) && st.records[Key(d, k)].job == job;
    RecordsContain(st, d, plan[d].bound, k);
    var n :| 0 <= n < |all| && all[n] == st.records[Key(d, k)];
    assert RecordOk(st, Key(d, k));
    forall j | 0 <= j < |all| && all[j].job == job ensures j == n {
      RecordsStored(st, d, plan[d].bound, j);
      if j < n { RecordsAscend(st, d, plan[d].bound, j, n); }
      if n < j { RecordsAscend(st, d, plan[d].bound, n, j); }
    }
    forall l: nat | Recorded(st, d, l) && st.records[Key(d, l)].job == job ensures l == k {
      assert Key(d, l) == Key(d, k);
    }
  }

  /**
    A follow-up whose dependency jobs are all authentic is accepted if and only if its trigger is
    the job bound in the trigger's slot and that job is a retry. A newer upstream acceptance
    between the trigger's record and the dependency read breaks exactly this.
  */
  lemma FollowupAcceptedIffTriggerIsBound(plan: Plan, st: Store, s: StageId, a: nat, f: Followup)
    requires ValidPlan(plan) && RecordsOk(st) && s in plan && Key(s, a) in st.followups && st.followups[Key(s, a)] == f
    requires f.key == Key(s, a) && |f.deps| == |plan[s].dependsOn| && Distinct(f.deps) && f.triggerStage in plan[s].dependsOn
    requires forall d | d in plan[s].dependsOn :: AllRecords(plan, st, d) == Some(Records(st, d, plan[d].bound))
    requires forall i | 0 <= i < |f.deps| :: plan[s].dependsOn[i] in plan[s].dependsOn && Accepted(plan, st, plan[s].dependsOn[i], f.deps[i], 0)
    ensures FollowupDeps(plan, st, s, a).Some? <==>
      (forall i | 0 <= i < |f.deps| && plan[s].dependsOn[i] == f.triggerStage ::
         f.deps[i] == f.triggerJob && plan[s].dependsOn[i] in plan && Accepted(plan, st, plan[s].dependsOn[i], f.triggerJob, 1))
  {
    hide RecordsOk, SlotAccepted, Accepted, AllRecords;
    forall i | 0 <= i < |f.deps|
      ensures plan[s].dependsOn[i] in plan
      ensures SlotAccepted(AllRecords(plan, st, plan[s].dependsOn[i]).value, f, plan[s].dependsOn[i], f.deps[i])
         <==> (plan[s].dependsOn[i] == f.triggerStage ==>
                 f.deps[i] == f.triggerJob && Accepted(plan, st, plan[s].dependsOn[i], f.deps[i], 1))
    {
      SlotIff(plan, st, f, plan[s].dependsOn[i], f.deps[i]);
    }
  }

  // ---------------------------------------------- a run with disagreeing orders

  /** A stage of two retryable tasks whose ID order is the reverse of their array order. */
  predicate Reversed(plan: Plan, s: StageId, a: TaskId, b: TaskId) {
    && ValidPlan(plan) && s in plan && a != b
    && plan[s].dependsOn == [] && plan[s].tasks == [b, a] && plan[s].byId == [a, b]
    && plan[s].bound >= 2 && "FAILED" in plan[s].policy.states
  }

  function FailedEvidence(s: StageId, t: TaskId): Evidence { Evidence(Key(s, 1), t, 1, Failing, false, true) }

  /** The store after a first attempt whose tasks both failed. */
  function FirstRound(s: StageId, a: TaskId, b: TaskId): Store {
    Store(map[Key(s, 1) := Intent(Key(s, 1), [b, a], [])], map[Key(s, 1) := Record(Key(s, 1), 1, [b, a], [])], map[], map[], map[],
          map[TaskKey(Key(s, 1), b) := FailedEvidence(s, b), TaskKey(Key(s, 1), a) := FailedEvidence(s, a)])
  }

  function RetryBoth(s: StageId, a: TaskId, b: TaskId): Receipt { Receipt(Key(s, 1), Retry, [], [a, b], [], false) }

  /** A first attempt without dependencies is accepted by its intent alone. */
  lemma FirstAccepted(plan: Plan, st: Store, s: StageId, record: Record)
    requires ValidPlan(plan) && s in plan && plan[s].dependsOn == [] && Key(s, 1) in st.intents && Key(s, 1) in st.records
    requires st.intents[Key(s, 1)] == Intent(Key(s, 1), plan[s].tasks, []) && st.records[Key(s, 1)] == record
    requires record == Record(Key(s, 1), record.job, plan[s].tasks, [])
    ensures RecordsUpTo(plan, st, s, 1) == Some([record])
  {
    WholeStage(plan, s);
    assert CommittedContract(plan, st, s, 1) == Some(Contract(plan[s].tasks, None));
    assert DependenciesAccepted(plan, st, s, []);
    assert RecordAccepted(plan, st, s, 1);
    hide CommittedContract, DependenciesAccepted, RecordAccepted, ValidPlan;
    assert RecordsUpTo(plan, st, s, 0) == Some([]);
    assert [] + [record] == [record];
  }

  lemma {:induction false} NothingAbove(plan: Plan, st: Store, s: StageId, upper: nat)
    requires ValidPlan(plan) && s in plan && upper >= 1 && (forall k: nat | 1 < k <= upper :: Key(s, k) !in st.records)
    ensures RecordsUpTo(plan, st, s, upper) == RecordsUpTo(plan, st, s, 1)
  {
    hide ValidPlan, RecordAccepted;
    if upper > 1 { NothingAbove(plan, st, s, upper - 1); }
  }

  lemma {:induction false} NoFollowups(plan: Plan, st: Store, s: StageId, from: nat)
    requires ValidPlan(plan) && s in plan && (forall k: nat | 1 < k <= from :: Key(s, k) !in st.followups)
    ensures OwningFollowup(plan, st, s, from) == Some(0)
  {
    hide ValidPlan, FollowupDeps, Owns;
    if from > 1 { NoFollowups(plan, st, s, from - 1); }
  }

  lemma FirstVerdict(plan: Plan, st: Store, s: StageId, a: TaskId, b: TaskId, t: TaskId)
    requires Reversed(plan, s, a, b) && t in [b, a] && TaskKey(Key(s, 1), t) in st.evidence
    requires st.evidence[TaskKey(Key(s, 1), t)] == FailedEvidence(s, t)
    ensures var records := [Record(Key(s, 1), 1, [b, a], [])];
      && TaskVerdict(plan[s], st, records, t) == Some(RetryTask)
      && EvidenceOf(plan[s], st, records, t) == Some([FailedEvidence(s, t)])
  {
    FailureIsRetryable(plan[s]);
    var records := [Record(Key(s, 1), 1, [b, a], [])];
    assert records[..0] == [];
    assert TaskVerdict(plan[s], st, [], t) == Some(FailedTask);
    assert EvidenceOf(plan[s], st, [], t) == Some([]);
    assert [] + [FailedEvidence(s, t)] == [FailedEvidence(s, t)];
  }

  /** Sorting the two tasks gives their ID order, selecting them their array order. */
  lemma TwoOrders(plan: Plan, s: StageId, a: TaskId, b: TaskId)
    requires Reversed(plan, s, a, b)
    ensures Sorted(plan[s], {a, b}) == [a, b] && Select(plan[s], [a, b]) == [b, a] && Sorted(plan[s], {}) == []
    ensures Selectable(plan[s], [a, b])
  {
    KeepAll([a, b], {a, b});
    KeepAll([b, a], Members([a, b]));
    EvidenceReconciliation.NothingSorted(plan[s]);
  }

  lemma FirstDecision(plan: Plan, s: StageId, a: TaskId, b: TaskId)
    requires Reversed(plan, s, a, b)
    ensures AllRecords(plan, FirstRound(s, a, b), s) == Some([Record(Key(s, 1), 1, [b, a], [])])
    ensures Reconcile(plan, FirstRound(s, a, b), s, [Record(Key(s, 1), 1, [b, a], [])], Valid) == Some(RetryBoth(s, a, b))
  {
    hide ValidPlan, RecordsUpTo, OwningFollowup, TaskVerdict, Sorted;
    var st, record := FirstRound(s, a, b), Record(Key(s, 1), 1, [b, a], []);
    FirstAccepted(plan, st, s, record);
    NothingAbove(plan, st, s, plan[s].bound);
    NoFollowups(plan, st, s, plan[s].bound);
    FirstVerdict(plan, st, s, a, b, a);
    FirstVerdict(plan, st, s, a, b, b);
    TwoOrders(plan, s, a, b);
    assert FromAttempt([record], 0) == [record] by { assert [record][..0] == [] && FromAttempt([], 0) == []; assert [] + [record] == [record]; }
    FirstDecides(plan, s, a, b);
  }

  lemma FirstDecides(plan: Plan, s: StageId, a: TaskId, b: TaskId)
    requires Reversed(plan, s, a, b)
    requires forall t | t in [b, a] :: TaskVerdict(plan[s], FirstRound(s, a, b), [Record(Key(s, 1), 1, [b, a], [])], t) == Some(RetryTask)
    requires Sorted(plan[s], {a, b}) == [a, b] && Sorted(plan[s], {}) == []
    ensures DecideNow(plan, FirstRound(s, a, b), s, [Record(Key(s, 1), 1, [b, a], [])], Valid) == Some(RetryBoth(s, a, b))
  {
    hide ValidPlan, TaskVerdict, Sorted, CommittedContract;
    var stage, st, records := plan[s], FirstRound(s, a, b), [Record(Key(s, 1), 1, [b, a], [])];
    var verdicts := Judge(stage, st, records).value;
    assert verdicts == map[a := RetryTask, b := RetryTask];
    assert Category(stage, verdicts, RetryTask) == {a, b};
    NoneOf(stage, verdicts, Success);
    NoneOf(stage, verdicts, FailedTask);
    NoneOf(stage, verdicts, Active);
  }

  /** The engine reaches the first round. */
  lemma FirstRoundReached(plan: Plan, s: StageId, a: TaskId, b: TaskId) returns (x: State)
    requires Reversed(plan, s, a, b)
    ensures Reachable(plan, x) && x.store == FirstRound(s, a, b)
  {
    hide Reachable, ValidPlan;
    ReachInit(plan);
    FirstDerived(plan, Empty, s);
    x := DerivationReached(plan, Init, s, 1);
    x := IntentPublished(plan, x, Intent(Key(s, 1), [b, a], []));
    x := RecordPublished(plan, x, Key(s, 1), 1);
    x := FailureWritten(plan, x, Key(s, 1), b);
    x := FailureWritten(plan, x, Key(s, 1), a);
  }

  lemma FirstDerived(plan: Plan, st: Store, s: StageId)
    requires ValidPlan(plan) && s in plan && plan[s].dependsOn == []
    ensures Derive(plan, st, s, 1) == Some(Authorization(plan[s].tasks, []))
  {
    NoJobs(plan, st, s);
  }

  lemma NoJobs(plan: Plan, st: Store, s: StageId)
    requires ValidPlan(plan) && s in plan && plan[s].dependsOn == []
    ensures DependencyJobs(plan, st, s) == Some([])
  {
    hide LatestRecord;
    var jobs := DependencyJobs(plan, st, s);
    assert jobs.Some? && |jobs.value| == 0;
    assert jobs.value == [];
  }

  /** Whatever else lies in the store, the first round and its receipt read back. */
  lemma RetryReads(plan: Plan, st: Store, s: StageId, a: TaskId, b: TaskId)
    requires Reversed(plan, s, a, b) && Key(s, 1) in st.receipts && st.receipts[Key(s, 1)] == RetryBoth(s, a, b)
    requires Key(s, 1) in st.intents && st.intents[Key(s, 1)] == Intent(Key(s, 1), [b, a], [])
    requires Key(s, 1) in st.records && st.records[Key(s, 1)] == Record(Key(s, 1), 1, [b, a], [])
    requires forall t | t in [b, a] :: TaskKey(Key(s, 1), t) in st.evidence && st.evidence[TaskKey(Key(s, 1), t)] == FailedEvidence(s, t)
    ensures ReadReceipt(plan, st, s, 1) == Some(Some(RetryBoth(s, a, b)))
  {
    hide ValidPlan, RecordsUpTo, EvidenceOf;
    var r, records := RetryBoth(s, a, b), [Record(Key(s, 1), 1, [b, a], [])];
    FirstAccepted(plan, st, s, records[0]);
    FirstVerdict(plan, st, s, a, b, a);
    FirstVerdict(plan, st, s, a, b, b);
    RetryStructural(plan, s, a, b);
    hide Structural;
    assert Supported(plan[s], st, records, r);
  }

  lemma RetryStructural(plan: Plan, s: StageId, a: TaskId, b: TaskId)
    requires Reversed(plan, s, a, b)
    ensures Structural(plan[s], RetryBoth(s, a, b))
  {
    var r := RetryBoth(s, a, b);
    assert r.successful + r.retry + r.failed == [a, b];
  }

  lemma RetryDerived(plan: Plan, st: Store, s: StageId, a: TaskId, b: TaskId)
    requires Reversed(plan, s, a, b) && st == FirstRound(s, a, b).(receipts := map[Key(s, 1) := RetryBoth(s, a, b)])
    ensures Derive(plan, st, s, 2) == Some(Authorization([b, a], []))
  {
    hide LatestRecord, ReadReceipt, Selectable, Select;
    RetryReads(plan, st, s, a, b);
    TwoOrders(plan, s, a, b);
    NoJobs(plan, st, s);
  }

  /**
    Without the ordering condition the engine wedges itself: on every plan with a stage of two retryable
    tasks whose two orders disagree, a run of a first attempt, its retry receipt and the retry's intent and
    record reaches a store whose records the strict reader refuses.
  */
  lemma WrongOrderWedges(plan: Plan, s: StageId, a: TaskId, b: TaskId) returns (x: State)
    requires Reversed(plan, s, a, b)
    ensures Reachable(plan, x) && Key(s, 2) in x.store.records && AllRecords(plan, x.store, s).None?
  {
    hide Reachable, ValidPlan, ReadReceipt, RecordsUpTo, Reconcile, Derive, Select;
    x := FirstRoundReached(plan, s, a, b);
    FirstDecision(plan, s, a, b);
    x := ReconciliationReached(plan, x, s, Valid);
    x := ReceiptPublished(plan, x, RetryBoth(s, a, b));
    RetryDerived(plan, x.store, s, a, b);
    x := DerivationReached(plan, x, s, 2);
    x := IntentPublished(plan, x, Intent(Key(s, 2), [b, a], []));
    x := RecordPublished(plan, x, Key(s, 2), 2);
    RetryReads(plan, x.store, s, a, b);
    TwoOrders(plan, s, a, b);
    RetryAcceptedIffOrdered(plan, x.store, s, 2);
  }

  // ------------------------------------------- a run with a split follow-up step

  /** A retryable stage and a stage that depends on it. */
  const Chained: Plan := map[
    0 := Stage(0, [], [1], [1], 3, Policy({"FAILED"}, {}, false)),
    1 := Stage(1, [0], [1], [1], 3, Policy({"FAILED"}, {}, false))]

  lemma ChainedIsValid()
    ensures ValidPlan(Chained) && OrdersAgree(Chained)
  {
  }

  lemma ReachableIsGood(plan: Plan, x: State)
    requires ValidPlan(plan) && OrdersAgree(plan) && Reachable(plan, x)
    ensures Good(plan, x.store) && EvidenceSafety.PendingOk(plan, x)
  {
    var states, steps :| IsTimelyRun(plan, states, steps) && states[|steps|] == x;
    hide IsTimelyRun, ValidPlan, OrdersAgree, Good, EvidenceSafety.PendingOk;
    EvidenceSafety.SoundRun(plan, states, steps, |steps|);
  }

  /** A stage without dependencies derives no dependency jobs. */
  lemma RootDerives(plan: Plan, x: State, s: StageId, a: nat)
    requires ValidPlan(plan) && OrdersAgree(plan) && Reachable(plan, x) && s in plan && plan[s].dependsOn == [] && 1 <= a <= plan[s].bound
    requires a > 1 ==> if Key(s, a - 1) in x.store.receipts then x.store.receipts[Key(s, a - 1)].decision == Retry else Rejected(x.store, s, a - 1)
    ensures Derive(plan, x.store, s, a).Some? && Derive(plan, x.store, s, a).value.deps == []
    ensures a == 1 ==> Derive(plan, x.store, s, a).value.tasks == plan[s].tasks
    ensures a > 1 ==> LeftOver(x.store, s, a) == Some(Derive(plan, x.store, s, a).value.tasks)
  {
    hide Reachable, Good, Derive, OrdersAgree, Linked, Records;
    ReachableIsGood(plan, x);
    DerivedIff(plan, x.store, s, a);
    DerivedIsAuthorized(plan, x.store, s, a);
  }

  const Once: Record := Record(Key(0, 2), 2, [1], [])
  const Twice: Record := Record(Key(0, 3), 3, [1], [])
  const Child: Record := Record(Key(1, 1), 10, [1], [2])

  /** The first stage: rejected once, then accepted. */
  const Upstream: Store := Store(
    map[Key(0, 1) := Intent(Key(0, 1), [1], []), Key(0, 2) := Intent(Key(0, 2), [1], [])],
    map[Key(0, 2) := Once], map[Key(0, 1) := Rejection(Key(0, 1), [1])], map[], map[], map[])

  /** Then its child is accepted behind it, and its own task fails. */
  const Downstream: Store := Upstream.(
    intents := Upstream.intents[Key(1, 1) := Intent(Key(1, 1), [1], [2])],
    records := Upstream.records[Key(1, 1) := Child],
    evidence := map[TaskKey(Key(0, 2), 1) := Evidence(Key(0, 2), 1, 2, Failing, false, true)])

  const RetryOnce: Receipt := Receipt(Key(0, 2), Retry, [], [1], [], false)

  /** Then the retry is accepted, which is newer than what the child runs behind. */
  const Retried: Store := Downstream.(
    receipts := map[Key(0, 2) := RetryOnce],
    intents := Downstream.intents[Key(0, 3) := Intent(Key(0, 3), [1], [])],
    records := Downstream.records[Key(0, 3) := Twice])

  lemma UpstreamReached() returns (x: State)
    ensures ValidPlan(Chained) && Reachable(Chained, x) && x.store == Upstream
  {
    ChainedIsValid();
    hide Reachable, ValidPlan, OrdersAgree, Derive;
    ReachInit(Chained);
    RootDerives(Chained, Init, 0, 1);
    x := DerivationReached(Chained, Init, 0, 1);
    x := IntentPublished(Chained, x, Intent(Key(0, 1), [1], []));
    x := RejectionPublished(Chained, x, Key(0, 1));
    RootDerives(Chained, x, 0, 2);
    x := DerivationReached(Chained, x, 0, 2);
    x := IntentPublished(Chained, x, Intent(Key(0, 2), [1], []));
    x := RecordPublished(Chained, x, Key(0, 2), 2);
  }

  lemma UpstreamGrows()
    ensures Extends(Upstream, Retried)
  {
  }

  lemma UpstreamRecords()
    ensures Records(Upstream, 0, 3) == [Once] && Records(Downstream, 0, 3) == [Once] && Records(Retried, 0, 3) == [Once, Twice]
  {
    RecordsOfThree(Upstream);
    RecordsOfThree(Downstream);
    RecordsOfThree(Retried);
  }

  lemma RecordsOfThree(st: Store)
    ensures Records(st, 0, 3) == (if Recorded(st, 0, 1) then [st.records[Key(0, 1)]] else [])
      + (if Recorded(st, 0, 2) then [st.records[Key(0, 2)]] else []) + (if Recorded(st, 0, 3) then [st.records[Key(0, 3)]] else [])
  {
    assert Records(st, 0, 0) == [];
    assert Records(st, 0, 1) == Records(st, 0, 0) + if Recorded(st, 0, 1) then [st.records[Key(0, 1)]] else [];
    assert Records(st, 0, 2) == Records(st, 0, 1) + if Recorded(st, 0, 2) then [st.records[Key(0, 2)]] else [];
  }

  /** The child's dependency jobs are the newest of the first stage. */
  lemma ChildDerives(x: State, job: JobId)
    requires ValidPlan(Chained) && OrdersAgree(Chained) && Reachable(Chained, x)
    requires Records(x.store, 0, 3) != [] && Records(x.store, 0, 3)[|Records(x.store, 0, 3)| - 1].job == job
    ensures DependencyJobs(Chained, x.store, 1) == Some([job])
    ensures Derive(Chained, x.store, 1, 1) == Some(Authorization([1], [job]))
  {
    hide Reachable, Good, OrdersAgree, Records, LatestRecord;
    ReachableIsGood(Chained, x);
    JobsRead(Chained, x.store, 1);
    var current := Current(Chained, x.store, 1);
    assert |current| == 1 && current[0] == job;
    assert current == [job];
  }

  lemma DownstreamReached(w: State) returns (x: State)
    requires ValidPlan(Chained) && OrdersAgree(Chained) && Reachable(Chained, w) && w.store == Upstream
    ensures Reachable(Chained, x) && x.store == Downstream
  {
    hide Reachable, ValidPlan, OrdersAgree, Derive, Records, DependencyJobs;
    UpstreamRecords();
    ChildDerives(w, 2);
    x := DerivationReached(Chained, w, 1, 1);
    x := IntentPublished(Chained, x, Intent(Key(1, 1), [1], [2]));
    x := RecordPublished(Chained, x, Key(1, 1), 10);
    x := FailureWritten(Chained, x, Key(0, 2), 1);
  }

  lemma OnceVerdict()
    ensures TaskVerdict(Chained[0], Downstream, [Once], 1) == Some(RetryTask)
  {
    FailureIsRetryable(Chained[0]);
    assert [Once][..0] == [];
    assert TaskVerdict(Chained[0], Downstream, [], 1) == Some(FailedTask);
  }

  lemma DownstreamDecides()
    ensures ValidPlan(Chained) && Reconcile(Chained, Downstream, 0, [Once], Valid) == Some(RetryOnce)
  {
    ChainedIsValid();
    hide ValidPlan, TaskVerdict, OwningFollowup, DecideNow, FromAttempt;
    NoFollowups(Chained, Downstream, 0, 3);
    OnceKept();
    OnceVerdict();
    OnceDecides();
  }

  lemma OnceKept()
    ensures FromAttempt([Once], 0) == [Once]
  {
    assert [Once][..0] == [] && FromAttempt([], 0) == [];
    assert [] + [Once] == [Once];
  }

  lemma OnceSorted()
    ensures Sorted(Chained[0], {1}) == [1]
  {
    KeepAll([1], {1});
  }

  lemma OnceDecides()
    requires ValidPlan(Chained) && TaskVerdict(Chained[0], Downstream, [Once], 1) == Some(RetryTask)
    ensures DecideNow(Chained, Downstream, 0, [Once], Valid) == Some(RetryOnce)
  {
    hide ValidPlan, TaskVerdict, CommittedContract, Sorted;
    var stage := Chained[0];
    var verdicts := Judge(stage, Downstream, [Once]).value;
    assert verdicts == map[1 := RetryTask];
    assert Category(stage, verdicts, RetryTask) == {1};
    OnceSorted();
    EvidenceReconciliation.NothingSorted(stage);
    NoneOf(stage, verdicts, Success);
    NoneOf(stage, verdicts, FailedTask);
    NoneOf(stage, verdicts, Active);
  }

  lemma RetriedReached(w: State) returns (x: State)
    requires ValidPlan(Chained) && OrdersAgree(Chained) && Reachable(Chained, w) && w.store == Downstream
    ensures Reachable(Chained, x) && x.store == Retried
  {
    hide Reachable, ValidPlan, OrdersAgree, Derive, Records, Reconcile, AllRecords;
    UpstreamRecords();
    DownstreamDecides();
    AllRead(w);
    x := ReconciliationReached(Chained, w, 0, Valid);
    x := ReceiptPublished(Chained, x, RetryOnce);
    RootDerives(Chained, x, 0, 3);
    x := DerivationReached(Chained, x, 0, 3);
    x := IntentPublished(Chained, x, Intent(Key(0, 3), [1], []));
    x := RecordPublished(Chained, x, Key(0, 3), 3);
  }

  lemma AllRead(x: State)
    requires ValidPlan(Chained) && OrdersAgree(Chained) && Reachable(Chained, x)
    ensures AllRecords(Chained, x.store, 0) == Some(Records(x.store, 0, 3))
  {
    hide Reachable, Good, OrdersAgree, Records, RecordsUpTo;
    ReachableIsGood(Chained, x);
    RecordsRead(Chained, x.store, 0, 3);
  }

  /** Without another follow-up above it, a refused one also keeps its stage from being reconciled. */
  lemma RefusedStops(st: Store, f: Followup)
    requires ValidPlan(Chained) && f.key == Key(1, 2) && !Timely(Chained, f)
    requires Key(1, 2) in st.followups && st.followups[Key(1, 2)] == f && Key(1, 3) !in st.followups
    ensures FollowupDeps(Chained, st, 1, 2).None?
    ensures forall records, files :: Reconcile(Chained, st, 1, records, files).None?
  {
    hide FollowupDeps, Owns, Timely;
    UntimelyRefused(Chained, st, 1, 2);
    assert OwningFollowup(Chained, st, 1, 2).None?;
    assert OwningFollowup(Chained, st, 1, 3).None?;
  }

  /**
    An untimely follow-up does happen: its trigger is the newest record of one reachable state, a newer
    upstream attempt is accepted, and the dependency jobs are read afterwards. No reader accepts it
    once it is published, and its stage cannot be reconciled.
  */
  lemma UntimelyFollowupHappens() returns (w: State, x: State, y: State, f: Followup)
    ensures ValidPlan(Chained) && OrdersAgree(Chained) && Reachable(Chained, w) && Reachable(Chained, x) && Extends(w.store, x.store)
    ensures LatestRecord(Chained, w.store, 0) == Some(Once) && f.triggerStage == 0 && f.triggerJob == Once.job
    ensures Next(Chained, x, y, PublishFollowup(f)) && !Timely(Chained, f)
    ensures f.key == Key(1, 2) && f.key in y.store.followups && FollowupDeps(Chained, y.store, 1, 2).None?
    ensures forall records, files :: Reconcile(Chained, y.store, 1, records, files).None?
  {
    ChainedIsValid();
    hide Reachable, ValidPlan, OrdersAgree, Records, Derive, FollowupDeps, Reconcile, AllRecords, DependencyJobs, Extends;
    w := UpstreamReached();
    UpstreamRecords();
    UpstreamGrows();
    AllRead(w);
    x := DownstreamReached(w);
    x := RetriedReached(x);
    ChildDerives(x, 3);
    x := AllGathered(Chained, x, 1);
    f := Followup(Key(1, 2), [3], 0, 2);
    x := StaleRebinds(x, f);
    y := x.(store := x.store.(followups := x.store.followups[f.key := f]));
    RefusedStops(y.store, f);
  }

  lemma StaleRebinds(x: State, f: Followup) returns (y: State)
    requires ValidPlan(Chained) && Reachable(Chained, x) && x.store == Retried && f == Followup(Key(1, 2), [3], 0, 2)
    requires Gathered(Chained, x, 1, [3])
    ensures Reachable(Chained, y) && y.store == x.store && f in y.followups && !Timely(Chained, f)
  {
    hide Reachable, ValidPlan, Gathered;
    y := x.(followups := x.followups + {f});
    assert Key(1, 1) in x.store.records;
    ReachRead(Chained, x, y, DeriveFollowup(f, Key(0, 2)));
    assert Chained[1].dependsOn[0] == 0 && f.deps[0] == 3;
  }

  // --------------------------------------------------------- the exact condition

  /** Everything in the store is accepted by its strict reader. */
  ghost predicate AllAccepted(plan: Plan, st: Store)
    requires ValidPlan(plan)
  {
    && (forall s, a: nat | s in plan && a >= 1 :: EvidenceSafety.Accepts(plan, st, s, a))
    && (forall k | k in st.followups :: k.stage in plan && k.attempt >= 1)
  }

  lemma UntimelyRefused(plan: Plan, st: Store, s: StageId, a: nat)
    requires ValidPlan(plan) && s in plan && Key(s, a) in st.followups && !Timely(plan, st.followups[Key(s, a)])
    ensures FollowupDeps(plan, st, s, a).None?
  {
    hide ValidPlan, AllRecords;
  }

  /** Every step only adds documents, whatever was published before. */
  lemma StepExtends(plan: Plan, x: State, y: State, step: Step)
    requires ValidPlan(plan) && Next(plan, x, y, step)
    ensures Extends(x.store, y.store)
  {
    hide ValidPlan, Reads;
    if step.Reading? { ReadKeepsStore(plan, x, y, step.read); }
  }

  lemma ReadKeepsStore(plan: Plan, x: State, y: State, read: Read)
    requires ValidPlan(plan) && Reads(plan, x, y, read)
    ensures y.store == x.store
  {
    hide ValidPlan, Gathers, Rebinds, Opens, Moves, Ends, Takes, Passes, Settles, Judges, Advances, Decides;
  }

  lemma {:induction false} StoresExtend(plan: Plan, states: seq<State>, steps: seq<Step>, m: nat, n: nat)
    requires ValidPlan(plan) && IsRun(plan, states, steps) && m <= n < |states|
    ensures Extends(states[m].store, states[n].store)
    decreases n
  {
    hide ValidPlan, Next, Extends;
    EvidenceSafety.ExtendsItself(states[m].store);
    if m < n {
      StoresExtend(plan, states, steps, m, n - 1);
      StepExtends(plan, states[n - 1], states[n], steps[n - 1]);
      EvidenceSafety.ExtendsOnward(states[m].store, states[n - 1].store, states[n].store);
    }
  }

  lemma UntimelyStays(plan: Plan, states: seq<State>, steps: seq<Step>, i: nat, n: nat)
    requires ValidPlan(plan) && IsRun(plan, states, steps) && i < n < |states| && !TimelyStep(plan, steps[i])
    ensures !AllAccepted(plan, states[n].store)
  {
    hide ValidPlan, Timely, Reads;
    var f, st := steps[i].followup, states[n].store;
    assert Next(plan, states[i], states[i + 1], steps[i]);
    StoresExtend(plan, states, steps, i + 1, n);
    assert f.key in st.followups && st.followups[f.key] == f;
    hide FollowupDeps, IsRun, Extends;
    if AllAccepted(plan, st) {
      var s, a := f.key.stage, f.key.attempt;
      assert Key(s, a) == f.key && EvidenceSafety.Accepts(plan, st, s, a);
      UntimelyRefused(plan, st, s, a);
    }
  }

  lemma TimelyAccepted(plan: Plan, states: seq<State>, steps: seq<Step>, n: nat)
    requires ValidPlan(plan) && OrdersAgree(plan) && IsTimelyRun(plan, states, steps) && n < |states|
    ensures AllAccepted(plan, states[n].store)
  {
    hide ValidPlan, OrdersAgree, IsTimelyRun, EvidenceSafety.Accepts, EvidenceSafety.PendingOk, IntentsOk, RecordsOk, ReceiptsOk, EvidencesOk;
    forall s, a: nat | s in plan && a >= 1 ensures EvidenceSafety.Accepts(plan, states[n].store, s, a) {
      EvidenceSafety.StrictReadersAcceptEverything(plan, states, steps, n, s, a);
    }
    EvidenceSafety.SoundRun(plan, states, steps, n);
    forall k | k in states[n].store.followups ensures k.stage in plan && k.attempt >= 1 {
      assert FollowupOk(plan, states[n].store, states[n].store.followups[k]);
    }
  }

  /**
    The exact condition: in every run, whatever is read and published when, the strict readers accept
    everything that is stored if and only if every follow-up published so far had its trigger in its slot.
  */
  lemma AcceptedIffTimely(plan: Plan, states: seq<State>, steps: seq<Step>, n: nat)
    requires ValidPlan(plan) && OrdersAgree(plan) && IsRun(plan, states, steps) && n < |states|
    ensures AllAccepted(plan, states[n].store) <==> forall i | 0 <= i < n :: TimelyStep(plan, steps[i])
  {
    hide ValidPlan, OrdersAgree, AllAccepted, Next, TimelyStep;
    if i: nat :| i < n && !TimelyStep(plan, steps[i]) {
      UntimelyStays(plan, states, steps, i, n);
    } else {
      assert IsTimelyRun(plan, states[..n + 1], steps[..n]);
      TimelyAccepted(plan, states[..n + 1], steps[..n], n);
    }
  }
}
