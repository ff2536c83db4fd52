/**
  The engine never wedges on its own evidence: on every good store an authorization can be
  derived, and a reconciliation reaches its decision, exactly when the raw documents say so.
*/
module EvidenceProgress {
  import opened Options
  import opened EvidenceStore
  import opened EvidenceReader
  import opened EvidenceEngine
  import opened EvidenceInvariant
  import opened EvidenceAuthentication
  import opened EvidenceDerivation
  import opened EvidenceReconciliation
  import opened EvidenceProtocol
  import EvidenceSafety

  // ------------------------------------------------------------- derivation

  /** Every prerequisite has an accepted attempt. */
  predicate Launched(plan: Plan, st: Store, s: StageId)
    requires ValidPlan(plan) && s in plan
  {
    forall d | d in plan[s].dependsOn :: Records(st, d, plan[d].bound) != []
  }

  /** The newest accepted job of each prerequisite, read off the store. */
  function Current(plan: Plan, st: Store, s: StageId): seq<JobId>
    requires ValidPlan(plan) && s in plan && Launched(plan, st, s)
  {
    seq(|plan[s].dependsOn|, i requires 0 <= i < |plan[s].dependsOn| =>
      var d := plan[s].dependsOn[i];
      assert d in plan[s].dependsOn;
      var all := Records(st, d, plan[d].bound);
      all[|all| - 1].job)
  }

  /** The attempt has an owner to run it: it is the first, a current follow-up's, or a retry the one before it leaves. */
  predicate Open(plan: Plan, st: Store, s: StageId, a: nat)
    requires ValidPlan(plan) && s in plan && Launched(plan, st, s)
  {
    || a == 1
    || (a > 1
        && if plan[s].dependsOn != [] && Key(s, a) in st.followups then st.followups[Key(s, a)].deps == Current(plan, st, s)
           else if Key(s, a - 1) in st.receipts then st.receipts[Key(s, a - 1)].decision == Retry
           else Rejected(st, s, a - 1))
  }

  lemma LatestRead(plan: Plan, st: Store, d: StageId)
    requires ValidPlan(plan) && Good(plan, st) && d in plan
    ensures var all := Records(st, d, plan[d].bound);
      LatestRecord(plan, st, d) == if all == [] then None else Some(all[|all| - 1])
  {
    hide ValidPlan, Good, RecordsUpTo;
    RecordsRead(plan, st, d, plan[d].bound);
  }

  lemma JobsRead(plan: Plan, st: Store, s: StageId)
    requires ValidPlan(plan) && Good(plan, st) && s in plan
    ensures DependencyJobs(plan, st, s) == if Launched(plan, st, s) then Some(Current(plan, st, s)) else None
  {
    hide Good, LatestRecord, Records;
    forall d | d in plan[s].dependsOn
      ensures d in plan && (LatestRecord(plan, st, d).Some? <==> Records(st, d, plan[d].bound) != [])
      ensures LatestRecord(plan, st, d).Some? ==>
        var all := Records(st, d, plan[d].bound); LatestRecord(plan, st, d).value == all[|all| - 1]
    {
      LatestRead(plan, st, d);
    }
    if Launched(plan, st, s) {
      var jobs, current := DependencyJobs(plan, st, s).value, Current(plan, st, s);
      forall i | 0 <= i < |plan[s].dependsOn| ensures jobs[i] == current[i] {
        var d := plan[s].dependsOn[i];
        assert d in plan[s].dependsOn;
      }
      assert jobs == current;
    }
  }

  lemma RetryTasksRead(plan: Plan, st: Store, s: StageId, a: nat)
    requires ValidPlan(plan) && Good(plan, st) && s in plan && a >= 2
    ensures RetryTasks(plan, st, s, a).Some? <==>
      if Key(s, a - 1) in st.receipts then st.receipts[Key(s, a - 1)].decision == Retry else Rejected(st, s, a - 1)
    ensures RetryTasks(plan, st, s, a).Some? ==> Selectable(plan[s], RetryTasks(plan, st, s, a).value)
  {
    hide Good, ValidPlan, ReadReceipt, Distinct, Placed, Hopeless, InOrder, Ordinary, DepsOk;
    ReceiptRead(plan, st, s, a - 1);
    if Key(s, a - 1) in st.receipts {
      ReceiptOf(plan, st, Key(s, a - 1));
      if st.receipts[Key(s, a - 1)].decision == Retry { RetrySelectable(plan[s], st.receipts[Key(s, a - 1)]); }
    } else if Rejected(st, s, a - 1) {
      RecordIntent(plan, st, s, a - 1);
      RejectionKeyed(plan, st, s, a - 1);
      IntentOf(plan, st, Key(s, a - 1));
    }
  }

  lemma RetrySelectable(stage: Stage, r: Receipt)
    requires Structural(stage, r) && r.decision == Retry
    ensures Selectable(stage, r.retry)
  {
    var all := r.successful + r.retry + r.failed;
    forall i, j | 0 <= i < j < |r.retry| ensures r.retry[i] != r.retry[j] {
      assert all[|r.successful| + i] == r.retry[i] && all[|r.successful| + j] == r.retry[j];
    }
    RetryIsTask(stage, r);
  }

  lemma RejectionKeyed(plan: Plan, st: Store, s: StageId, a: nat)
    requires Good(plan, st) && Rejected(st, s, a)
    ensures st.rejections[Key(s, a)].key == Key(s, a)
  {
    hide IntentsOk, FollowupsOk, ReceiptsOk, EvidencesOk;
    assert RejectionOk(st, Key(s, a));
  }

  /**
    An authorization is derived exactly when the bound admits the attempt, every prerequisite was
    launched and the attempt is open; a first attempt and a follow-up take every task and the newest
    prerequisite jobs, an ordinary retry the tasks the attempt before it leaves and its dependency jobs.
  */
  lemma DerivedIff(plan: Plan, st: Store, s: StageId, a: nat)
    requires ValidPlan(plan) && OrdersAgree(plan) && Good(plan, st) && s in plan
    ensures Derive(plan, st, s, a).Some? <==> 1 <= a <= plan[s].bound && Launched(plan, st, s) && Open(plan, st, s, a)
    ensures Derive(plan, st, s, a).Some? ==>
      var auth := Derive(plan, st, s, a).value;
      if a == 1 || (plan[s].dependsOn != [] && Key(s, a) in st.followups)
      then auth == Authorization(plan[s].tasks, Current(plan, st, s))
      else LeftOver(st, s, a) == Some(auth.tasks) && Linked(st, s, a, auth.deps)
  {
    hide Good, ValidPlan, OrdersAgree, DependencyJobs, FollowupDeps, RetryTasks, OrdinaryDeps, Selectable, Select, DepsOk,
         OnlyMissing, Linked, LeftOver, Launched, Current;
    JobsRead(plan, st, s);
    if DependencyJobs(plan, st, s).Some? && a >= 2 {
      if plan[s].dependsOn != [] && Key(s, a) in st.followups {
        FollowupRead(plan, st, s, a);
      } else {
        RetryTasksRead(plan, st, s, a);
        if RetryTasks(plan, st, s, a).Some? {
          RetryTasksKept(plan, st, s, a);
          JobsAreKnown(plan, st, s);
          OrdinaryDepsLinked(plan, st, s, a, DependencyJobs(plan, st, s).value);
        }
      }
    }
  }

  // ----------------------------------------------------------- reconciliation

  /** No task is still waiting for a verdict. */
  predicate Concluded(stage: Stage, verdicts: Verdicts) {
    Judged(stage, verdicts) && forall t | t in stage.tasks :: verdicts[t] != Active
  }

  function LastOf(q: Inquiry): nat
    requires q.records != []
  {
    q.records[|q.records| - 1].key.attempt
  }

  lemma VerdictAgrees(plan: Plan, st: Store, q: Inquiry, r: Receipt, t: TaskId)
    requires Good(plan, st) && InquiryOk(plan, st, q) && q.stage in plan && Concluded(plan[q.stage], q.verdicts)
    requires ReceiptOk(plan, st, r) && r.key == Key(q.stage, q.last) && t in plan[q.stage].tasks
    requires (t in r.successful || t in r.retry) && (t in r.successful ==> t !in r.retry)
    ensures t in r.retry <==> q.verdicts[t] == RetryTask
  {
    hide Good, Newest, Structural, Hopeless, InOrder, InquiryOk;
    var k: nat :| Placed(st, r, k, t);
    var i := DecisiveIsNewest(plan, st, q, t);
    EvidenceSafety.NewestUnique(st, q.stage, k, q.records[i].key.attempt, q.last, t);
  }

  /** A retry receipt at the last accepted attempt left exactly the tasks that still call for a retry. */
  lemma ReceiptMatchesVerdicts(plan: Plan, st: Store, q: Inquiry)
    requires ValidPlan(plan) && Good(plan, st) && InquiryOk(plan, st, q) && q.stage in plan && Concluded(plan[q.stage], q.verdicts)
    requires Key(q.stage, q.last) in st.receipts && st.receipts[Key(q.stage, q.last)].decision == Retry
    ensures st.receipts[Key(q.stage, q.last)].retry == Expected(plan[q.stage], q.verdicts)
  {
    hide Good, ValidPlan, Sorted, InquiryOk, Placed, Hopeless, InOrder, Structural, Settled;
    var s, stage, r := q.stage, plan[q.stage], st.receipts[Key(q.stage, q.last)];
    var wanted := Category(stage, q.verdicts, RetryTask);
    ReceiptOf(plan, st, Key(s, q.last));
    EvidenceSafety.Categories(stage, r);
    Covered(stage, r);
    SortedMeans(plan, s, wanted);
    forall t | t in stage.tasks ensures t in r.retry <==> t in Sorted(stage, wanted) { VerdictAgrees(plan, st, q, r, t); }
    EvidenceSafety.SameOrder(stage, r.retry, Sorted(stage, wanted));
  }

  lemma Covered(stage: Stage, r: Receipt)
    requires Structural(stage, r) && r.decision == Retry
    ensures forall t | t in stage.tasks :: t in r.successful || t in r.retry
  {
  }

  /** A rejected retry right behind a record took its tasks from that record's retry receipt. */
  lemma LeftByReceipt(plan: Plan, st: Store, s: StageId, m: nat)
    requires Good(plan, st) && 2 <= m && Recorded(st, s, m - 1) && Rejected(st, s, m) && !Committed(plan, st, s, m)
    ensures Key(s, m - 1) in st.receipts && st.receipts[Key(s, m - 1)].decision == Retry
    ensures st.rejections[Key(s, m)].tasks == st.receipts[Key(s, m - 1)].retry
  {
    hide Good, OnlyMissing, Linked, DepsOk;
    OrdinaryOf(plan, st, s, m);
    RecordIntent(plan, st, s, m);
    RecordIntent(plan, st, s, m - 1);
  }

  /** A rejected retry behind a rejection took over its tasks. */
  lemma LeftByRejection(plan: Plan, st: Store, s: StageId, m: nat)
    requires Good(plan, st) && 2 <= m && Rejected(st, s, m - 1) && Rejected(st, s, m) && !Committed(plan, st, s, m)
    ensures st.rejections[Key(s, m)].tasks == st.rejections[Key(s, m - 1)].tasks
  {
    hide Good, OnlyMissing, Linked, DepsOk, IntentsOk, RecordsOk, EvidencesOk;
    OrdinaryOf(plan, st, s, m);
    RecordIntent(plan, st, s, m);
    GoodParts(plan, st);
  }

  lemma LastIsRecorded(plan: Plan, st: Store, q: Inquiry)
    requires InquiryOk(plan, st, q)
    ensures q.stage in plan && q.records != [] && Recorded(st, q.stage, LastOf(q)) && LastOf(q) <= q.last <= plan[q.stage].bound
  {
    hide Gapless, Retried, Full, VerdictsOk, Expected;
    var o: nat :| Sufficient(plan, st, q.stage, q.records, o) && Full(plan, st, q.stage, o);
  }

  /** Every rejection after the last accepted attempt of the generation names the retry set. */
  lemma {:induction false} RejectionsMatch(plan: Plan, st: Store, q: Inquiry, m: nat)
    requires ValidPlan(plan) && Good(plan, st) && InquiryOk(plan, st, q) && q.stage in plan && Concluded(plan[q.stage], q.verdicts)
    requires q.records != [] && q.last == LastOf(q) < m && SameGeneration(plan, st, q.stage, q.last, m)
    requires Rejected(st, q.stage, m) && (forall k | q.last < k <= m :: Rejected(st, q.stage, k))
    ensures st.rejections[Key(q.stage, m)].tasks == Expected(plan[q.stage], q.verdicts)
    decreases m
  {
    hide Good, ValidPlan, Expected, InquiryOk, Concluded, Committed, DepsOk;
    LastIsRecorded(plan, st, q);
    RecordIntent(plan, st, q.stage, q.last);
    if m == q.last + 1 {
      LeftByReceipt(plan, st, q.stage, m);
      ReceiptMatchesVerdicts(plan, st, q);
    } else {
      assert Rejected(st, q.stage, m - 1);
      RejectionsMatch(plan, st, q, m - 1);
      LeftByRejection(plan, st, q.stage, m);
    }
  }

  /** The rejection chain is never refused. */
  lemma {:induction false} ChainIsAccepted(plan: Plan, st: Store, q: Inquiry, a: nat)
    requires ValidPlan(plan) && Good(plan, st) && InquiryOk(plan, st, q) && q.stage in plan && Concluded(plan[q.stage], q.verdicts)
    requires q.records != [] && q.last == LastOf(q) <= a <= plan[q.stage].bound
    requires SameGeneration(plan, st, q.stage, q.last, plan[q.stage].bound) && (forall k | q.last < k <= a :: Rejected(st, q.stage, k))
    ensures LastRejected(plan, st, q.stage, a, Expected(plan[q.stage], q.verdicts)).Some?
    decreases plan[q.stage].bound - a
  {
    hide Good, ValidPlan, Expected, InquiryOk, Concluded, CommittedContract, SameGeneration, Committed, DepsOk;
    var s := q.stage;
    if a < plan[s].bound && Key(s, a + 1) in st.rejections {
      Narrow(plan, st, s, q.last, plan[s].bound, q.last, a + 1);
      RejectionsMatch(plan, st, q, a + 1);
      RecordIntent(plan, st, s, a + 1);
      RejectionKeyed(plan, st, s, a + 1);
      ContractRead(plan, st, s, a + 1);
      ChainIsAccepted(plan, st, q, a + 1);
    }
  }

  /** Everything about the current generation, read at once. */
  lemma JudgedNow(plan: Plan, st: Store, s: StageId) returns (q: Inquiry)
    requires ValidPlan(plan) && Good(plan, st) && s in plan && OwningFollowup(plan, st, s, plan[s].bound).Some?
    requires FromAttempt(Records(st, s, plan[s].bound), OwningFollowup(plan, st, s, plan[s].bound).value) != []
    ensures var kept := FromAttempt(Records(st, s, plan[s].bound), OwningFollowup(plan, st, s, plan[s].bound).value);
      && Judge(plan[s], st, kept).Some? && q == Inquiry(s, kept, Judge(plan[s], st, kept).value, kept[|kept| - 1].key.attempt)
      && InquiryOk(plan, st, q) && SameGeneration(plan, st, s, q.last, plan[s].bound)
  {
    hide Good, ValidPlan, OwningFollowup, FromAttempt, TaskVerdict, SameGeneration, Sufficient, Records, Listed, Gapless, DepsOk;
    OwningRead(plan, st, s, plan[s].bound);
    var o := OwningFollowup(plan, st, s, plan[s].bound).value;
    var kept := FromAttempt(Records(st, s, plan[s].bound), o);
    FreshSufficient(plan, st, s, o);
    SufficientParts(plan, st, s, kept, o);
    StartSettled(plan, st, s, kept, o);
    RecordIntent(plan, st, s, First(o));
    assert Full(plan, st, s, o);
    AllJudged(plan, st, s, kept, o);
    q := Inquiry(s, kept, Judge(plan[s], st, kept).value, kept[|kept| - 1].key.attempt);
    StartsBelow(st, s, kept, o);
    Narrow(plan, st, s, o, plan[s].bound, q.last, plan[s].bound);
  }

  lemma AllJudged(plan: Plan, st: Store, s: StageId, records: seq<Record>, o: nat)
    requires Good(plan, st) && records != [] && Sufficient(plan, st, s, records, o) && Full(plan, st, s, o)
    ensures Judge(plan[s], st, records).Some? && VerdictsOk(st, records, Judge(plan[s], st, records).value)
  {
    hide Good, TaskVerdict, Sufficient, Listed, Gapless, Decisive;
    SufficientParts(plan, st, s, records, o);
    GoodParts(plan, st);
    hide IntentsOk, RecordsOk, EvidencesOk, Coherent;
    forall t | t in plan[s].tasks ensures TaskVerdict(plan[s], st, records, t).Some? { VerdictReadable(plan, st, s, records, t); }
    var verdicts := Judge(plan[s], st, records).value;
    forall t | t in verdicts ensures exists i: nat :: Decisive(st, records, t, verdicts[t], i) {
      var i := VerdictRests(plan, st, s, records, o, t);
    }
  }

  lemma StartsBelow(st: Store, s: StageId, records: seq<Record>, o: nat)
    requires records != [] && Listed(st, s, records) && Gapless(st, s, records, o)
    ensures o <= records[|records| - 1].key.attempt
  {
  }

  /**
    A reconciliation of the current generation decides exactly when every task has its verdict and,
    if all succeeded, the files could be observed; nothing in the evidence itself can stop it.
  */
  lemma ReconcileDecidesIff(plan: Plan, st: Store, s: StageId, files: Files)
    requires ValidPlan(plan) && Good(plan, st) && s in plan
    ensures AllRecords(plan, st, s) == Some(Records(st, s, plan[s].bound)) && OwningFollowup(plan, st, s, plan[s].bound).Some?
    ensures var kept := FromAttempt(Records(st, s, plan[s].bound), OwningFollowup(plan, st, s, plan[s].bound).value);
      Reconcile(plan, st, s, Records(st, s, plan[s].bound), files).Some? <==>
        && kept != []
        && (forall t | t in plan[s].tasks :: TaskVerdict(plan[s], st, kept, t) != Some(Active))
        && (files == Untrusted ==> exists t | t in plan[s].tasks :: TaskVerdict(plan[s], st, kept, t) != Some(Success))
  {
    hide Good, ValidPlan, OwningFollowup, FromAttempt, TaskVerdict, InquiryOk, SameGeneration, LastRejected, RecordsUpTo, Records, Decide;
    RecordsRead(plan, st, s, plan[s].bound);
    OwningRead(plan, st, s, plan[s].bound);
    var o := OwningFollowup(plan, st, s, plan[s].bound).value;
    var kept := FromAttempt(Records(st, s, plan[s].bound), o);
    if kept != [] {
      var q := JudgedNow(plan, st, s);
      if Concluded(plan[s], q.verdicts) {
        LastIsRecorded(plan, st, q);
        ChainIsAccepted(plan, st, q, q.last);
        DecideIff(plan[s], s, q.verdicts, LastRejected(plan, st, s, q.last, Expected(plan[s], q.verdicts)).value, files);
      } else {
        Undecided(plan[s], s, q.verdicts, files);
      }
    }
  }

  lemma DecideIff(stage: Stage, s: StageId, verdicts: Verdicts, last: nat, files: Files)
    requires Concluded(stage, verdicts)
    ensures Decide(stage, s, verdicts, last, files).Some? <==> (files == Untrusted ==> exists t | t in stage.tasks :: verdicts[t] != Success)
  {
    hide Sorted;
    NoneOf(stage, verdicts, Active);
    if forall t | t in stage.tasks :: verdicts[t] == Success {
      NoneOf(stage, verdicts, RetryTask);
      NoneOf(stage, verdicts, FailedTask);
    } else {
      var t :| t in stage.tasks && verdicts[t] != Success;
      match verdicts[t] {
        case Success => case Active => case RetryTask => assert t in Category(stage, verdicts, RetryTask);
        case FailedTask => assert t in Category(stage, verdicts, FailedTask);
      }
    }
  }

  lemma NoneOf(stage: Stage, verdicts: Verdicts, v: Verdict)
    requires forall t | t in stage.tasks && t in verdicts :: verdicts[t] != v
    ensures Category(stage, verdicts, v) == {}
  {
    var chosen := Category(stage, verdicts, v);
    assert forall t: TaskId :: t !in chosen;
    assert chosen == {};
  }

  lemma Undecided(stage: Stage, s: StageId, verdicts: Verdicts, files: Files)
    requires Judged(stage, verdicts) && !Concluded(stage, verdicts)
    ensures forall last: nat :: Decide(stage, s, verdicts, last, files).None?
  {
    var t :| t in stage.tasks && verdicts[t] == Active;
    assert t in Category(stage, verdicts, Active);
  }
}
