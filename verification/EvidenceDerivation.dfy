/**
  What the engine derives from a good store: every authorization it derives is one the
  invariant admits, and stays inside its dependency generation.
*/
module EvidenceDerivation {
  import opened Options
  import opened EvidenceStore
  import opened EvidenceReader
  import opened EvidenceEngine
  import opened EvidenceInvariant
  import opened EvidenceAuthentication

  lemma GoodParts(plan: Plan, st: Store)
    requires Good(plan, st)
    ensures IntentsOk(plan, st) && RecordsOk(st) && EvidencesOk(plan, st) && Coherent(st)
  {
    forall k | k in st.records ensures k !in st.rejections { assert RecordOk(st, k); }
    forall k | k in st.receipts && k in st.rejections && st.receipts[k].decision == Retry
      ensures st.receipts[k].retry == st.rejections[k].tasks
    {
      assert st.receipts[k].key == k && ReceiptOk(plan, st, st.receipts[k]);
    }
  }

  lemma RecordIntent(plan: Plan, st: Store, s: StageId, a: nat)
    requires Good(plan, st) && Settled(st, s, a)
    ensures Key(s, a) in st.intents && s in plan && 1 <= a <= plan[s].bound && DepsOk(plan, st, s, st.intents[Key(s, a)].deps)
    ensures Recorded(st, s, a) ==>
      && !Rejected(st, s, a) && st.records[Key(s, a)].key == Key(s, a)
      && st.records[Key(s, a)].tasks == st.intents[Key(s, a)].tasks && st.records[Key(s, a)].deps == st.intents[Key(s, a)].deps
    ensures Rejected(st, s, a) ==> !Recorded(st, s, a) && st.rejections[Key(s, a)].tasks == st.intents[Key(s, a)].tasks
  {
    hide IntentsOk, FollowupsOk, ReceiptsOk, EvidencesOk, Ordinary, DepsOk;
    SettledIntent(plan, st, s, a);
    assert Recorded(st, s, a) ==> RecordOk(st, Key(s, a));
    assert Rejected(st, s, a) ==> RejectionOk(st, Key(s, a));
  }

  /** A settled attempt that no follow-up committed is an ordinary retry. */
  lemma OrdinaryOf(plan: Plan, st: Store, s: StageId, a: nat)
    requires Good(plan, st) && Settled(st, s, a) && a >= 2 && !Committed(plan, st, s, a)
    ensures Key(s, a) in st.intents && Ordinary(plan, st, s, a, st.intents[Key(s, a)].tasks, st.intents[Key(s, a)].deps)
  {
    hide IntentsOk, RecordsOk, FollowupsOk, ReceiptsOk, EvidencesOk, Ordinary;
    SettledIntent(plan, st, s, a);
  }

  lemma Chain(plan: Plan, st: Store, s: StageId, a: nat, k: nat)
    requires Good(plan, st) && Settled(st, s, a) && 1 <= k <= a && SameGeneration(plan, st, s, k, a)
    ensures Settled(st, s, k)
  {
    hide IntentsOk, RecordsOk, FollowupsOk, ReceiptsOk, EvidencesOk, SameGeneration;
    SettledChain(plan, st, s, a, k);
  }

  /** Above a record, and up to the next committed follow-up, the dependency jobs do not change. */
  lemma {:induction false} SameDeps(plan: Plan, st: Store, s: StageId, a: nat, k: nat, j: nat)
    requires Good(plan, st) && 1 <= j <= k <= a && Recorded(st, s, j) && Settled(st, s, a) && SameGeneration(plan, st, s, k, a)
    ensures Key(s, a) in st.intents && Key(s, k) in st.intents && st.intents[Key(s, a)].deps == st.intents[Key(s, k)].deps
    decreases a
  {
    hide Good, OnlyMissing, DepsOk;
    RecordIntent(plan, st, s, a);
    if k < a {
      OrdinaryOf(plan, st, s, a);
      RecordIntent(plan, st, s, a - 1);
      RecordIntent(plan, st, s, j);
      SameDeps(plan, st, s, a - 1, k, j);
      assert Unused(st, s, a) ==> Rejected(st, s, j);
    }
  }

  // ------------------------------------------------------ dependency jobs

  lemma LatestStored(plan: Plan, st: Store, d: StageId)
    requires ValidPlan(plan) && Good(plan, st) && d in plan && LatestRecord(plan, st, d).Some?
    ensures var r := LatestRecord(plan, st, d).value;
      r.key.stage == d && r.key.attempt >= 1 && Recorded(st, d, r.key.attempt) && st.records[r.key] == r
  {
    hide RecordsUpTo, IntentsOk, FollowupsOk, ReceiptsOk, EvidencesOk, RecordsOk, ValidPlan;
    RecordsRead(plan, st, d, plan[d].bound);
    RecordsStored(st, d, plan[d].bound, |Records(st, d, plan[d].bound)| - 1);
  }

  lemma JobsAreKnown(plan: Plan, st: Store, s: StageId)
    requires ValidPlan(plan) && Good(plan, st) && s in plan && DependencyJobs(plan, st, s).Some?
    ensures DepsOk(plan, st, s, DependencyJobs(plan, st, s).value) && Distinct(DependencyJobs(plan, st, s).value)
  {
    hide Good, LatestRecord;
    var deps := DependencyJobs(plan, st, s).value;
    forall i | 0 <= i < |deps| ensures HasJob(st, plan[s].dependsOn[i], deps[i], 0) {
      var d := plan[s].dependsOn[i];
      assert d in plan[s].dependsOn;
      LatestStored(plan, st, d);
      assert Recorded(st, d, LatestRecord(plan, st, d).value.key.attempt);
    }
    JobsDiffer(plan, st, s, deps);
  }

  lemma JobsDiffer(plan: Plan, st: Store, s: StageId, deps: seq<JobId>)
    requires ValidPlan(plan) && Good(plan, st) && s in plan && DepsOk(plan, st, s, deps)
    ensures Distinct(deps)
  {
    hide Good;
    forall i, j | 0 <= i < j < |deps| ensures deps[i] != deps[j] {
      var k: nat :| k > 0 && Recorded(st, plan[s].dependsOn[i], k) && st.records[Key(plan[s].dependsOn[i], k)].job == deps[i];
      var l: nat :| l > 0 && Recorded(st, plan[s].dependsOn[j], l) && st.records[Key(plan[s].dependsOn[j], l)].job == deps[j];
      if deps[i] == deps[j] { OneJobOneKey(plan, st, Key(plan[s].dependsOn[i], k), Key(plan[s].dependsOn[j], l)); }
    }
  }

  lemma OneJobOneKey(plan: Plan, st: Store, k: Key, l: Key)
    requires Good(plan, st) && k in st.records && l in st.records && st.records[k].job == st.records[l].job
    ensures k == l
  {
  }

  // ---------------------------------------------------- owning generations

  lemma OwnsRead(plan: Plan, st: Store, s: StageId, a: nat)
    requires ValidPlan(plan) && Good(plan, st) && s in plan && a >= 1
    ensures Owns(plan, st, s, a) == Some(Key(s, a) !in st.intents || Committed(plan, st, s, a))
  {
    hide ValidPlan, Good, CommittedContract, Committed;
    if Key(s, a) in st.intents { ContractRead(plan, st, s, a); }
  }

  /** The scan for the owning follow-up passes over no committed generation. */
  lemma {:induction false} OwningRead(plan: Plan, st: Store, s: StageId, from: nat)
    requires ValidPlan(plan) && Good(plan, st) && s in plan
    ensures OwningFollowup(plan, st, s, from).Some?
    ensures var o := OwningFollowup(plan, st, s, from).value;
      && SameGeneration(plan, st, s, o, from)
      && (o != 0 ==> 2 <= o <= from && Key(s, o) in st.followups && (Key(s, o) in st.intents ==> Committed(plan, st, s, o)))
  {
    hide Good, FollowupDeps, Owns;
    if from > 1 {
      if Key(s, from) in st.followups {
        FollowupRead(plan, st, s, from);
        OwnsRead(plan, st, s, from);
      }
      OwningRead(plan, st, s, from - 1);
    }
  }

  // ------------------------------------------------- ordinary dependencies

  lemma {:induction false} LastStored(st: Store, s: StageId, upper: nat)
    requires RecordsOk(st)
    ensures var all := Records(st, s, upper);
      if all == [] then forall k | 1 <= k <= upper :: !Recorded(st, s, k)
      else
        var a := all[|all| - 1].key.attempt;
        && 1 <= a <= upper && Recorded(st, s, a) && st.records[Key(s, a)] == all[|all| - 1]
        && forall k | a < k <= upper :: !Recorded(st, s, k)
  {
    if upper > 0 {
      LastStored(st, s, upper - 1);
      assert Recorded(st, s, upper) ==> RecordOk(st, Key(s, upper));
    }
  }

  /** An ordinary retry after a rejection keeps the rejected attempt's dependency jobs. */
  lemma RejectedLink(plan: Plan, st: Store, s: StageId, a: nat, owner: nat, latest: nat)
    requires Good(plan, st) && s in plan && a >= 2 && Rejected(st, s, a - 1)
    requires SameGeneration(plan, st, s, owner, a - 1) && owner < a && latest < a
    requires owner != 0 ==> 2 <= owner && Key(s, owner) in st.followups && (Key(s, owner) in st.intents ==> Committed(plan, st, s, owner))
    requires latest != 0 ==> Recorded(st, s, latest)
    requires forall k | latest < k < a :: !Recorded(st, s, k)
    ensures Key(s, a - 1) in st.intents
    ensures owner > latest ==> st.followups[Key(s, owner)].deps == st.intents[Key(s, a - 1)].deps
    ensures latest >= owner && latest != 0 ==> st.records[Key(s, latest)].deps == st.intents[Key(s, a - 1)].deps
    ensures latest == 0 && owner == 0 ==> Unused(st, s, a)
  {
    hide Good, DepsOk;
    RecordIntent(plan, st, s, a - 1);
    if owner > latest {
      Chain(plan, st, s, a - 1, owner);
      RecordIntent(plan, st, s, owner);
      var j := SomeRecord(plan, st, s, owner);
      SameDeps(plan, st, s, a - 1, owner, j);
    } else if latest != 0 {
      RecordIntent(plan, st, s, latest);
      SameDeps(plan, st, s, a - 1, latest, latest);
    } else {
      forall k: nat | 1 <= k < a ensures Rejected(st, s, k) { Chain(plan, st, s, a - 1, k); }
    }
  }

  lemma SomeRecord(plan: Plan, st: Store, s: StageId, a: nat) returns (j: nat)
    requires Good(plan, st) && Key(s, a) in st.followups
    ensures 1 <= j < a && Recorded(st, s, j)
  {
    hide IntentsOk, RecordsOk, ReceiptsOk, EvidencesOk, DepsOk;
    assert st.followups[Key(s, a)].key == Key(s, a) && FollowupOk(plan, st, st.followups[Key(s, a)]);
    j :| 1 <= j < a && Recorded(st, s, j);
  }

  /** `_ordinary_retry_dependencies` keeps a retry inside its dependency generation. */
  lemma OrdinaryDepsLinked(plan: Plan, st: Store, s: StageId, a: nat, current: seq<JobId>)
    requires ValidPlan(plan) && Good(plan, st) && s in plan && a >= 2 && Settled(st, s, a - 1) && DepsOk(plan, st, s, current)
    ensures OrdinaryDeps(plan, st, s, a, current).Some?
    ensures var deps := OrdinaryDeps(plan, st, s, a, current).value;
      Linked(st, s, a, deps) && DepsOk(plan, st, s, deps)
  {
    hide Good, ValidPlan, RecordsUpTo, OwningFollowup, SameGeneration, DepsOk;
    RecordIntent(plan, st, s, a - 1);
    NoDeps(plan, st, s, st.intents[Key(s, a - 1)].deps);
    NoDeps(plan, st, s, []);
    RecordsRead(plan, st, s, a - 1);
    OwningRead(plan, st, s, a - 1);
    StoredDeps(plan, st, s, a);
    var owner := OwningFollowup(plan, st, s, a - 1).value;
    var all := Records(st, s, a - 1);
    var latest := if all == [] then 0 else all[|all| - 1].key.attempt;
    if Rejected(st, s, a - 1) { RejectedLink(plan, st, s, a, owner, latest); }
    if owner != 0 { FollowupDepsOk(plan, st, s, owner); }
    if latest != 0 { RecordIntent(plan, st, s, latest); }
  }

  lemma StoredDeps(plan: Plan, st: Store, s: StageId, a: nat)
    requires Good(plan, st) && a >= 2
    ensures var all := Records(st, s, a - 1);
      if all == [] then forall k | 1 <= k < a :: !Recorded(st, s, k)
      else
        var l := all[|all| - 1].key.attempt;
        && 1 <= l < a && Recorded(st, s, l) && st.records[Key(s, l)] == all[|all| - 1]
        && forall k | l < k < a :: !Recorded(st, s, k)
  {
    LastStored(st, s, a - 1);
  }

  lemma FollowupDepsOk(plan: Plan, st: Store, s: StageId, a: nat)
    requires Good(plan, st) && s in plan && Key(s, a) in st.followups
    ensures DepsOk(plan, st, s, st.followups[Key(s, a)].deps)
  {
    hide IntentsOk, RecordsOk, ReceiptsOk, EvidencesOk, DepsOk;
    assert st.followups[Key(s, a)].key == Key(s, a) && FollowupOk(plan, st, st.followups[Key(s, a)]);
  }

  lemma NoDeps(plan: Plan, st: Store, s: StageId, deps: seq<JobId>)
    requires s in plan
    ensures plan[s].dependsOn == [] ==> (DepsOk(plan, st, s, deps) <==> deps == [])
  {
  }

  // ----------------------------------------------------- ordinary task sets

  /** A retry receipt leaves only tasks that failed in every attempt of their generation. */
  lemma ReceiptLeavesMissing(plan: Plan, st: Store, s: StageId, a: nat)
    requires Good(plan, st) && a >= 2 && Key(s, a - 1) in st.receipts && st.receipts[Key(s, a - 1)].decision == Retry
    ensures OnlyMissing(plan, st, s, a, st.receipts[Key(s, a - 1)].retry)
  {
    hide Good, SameGeneration, Structural, InOrder, Hopeless;
    var r := st.receipts[Key(s, a - 1)];
    ReceiptOf(plan, st, Key(s, a - 1));
    RetryIsTask(plan[s], r);
    forall k: nat, t | 1 <= k < a && t in r.retry && Ran(st, s, k, t) && SameGeneration(plan, st, s, k, a - 1)
      ensures Unsuccessful(st, s, k, t)
    {
      var n: nat :| Placed(st, r, n, t);
      EarlierFailed(plan, st, s, k, n, a - 1, t);
    }
  }

  lemma RetryIsTask(stage: Stage, r: Receipt)
    requires Structural(stage, r)
    ensures forall t | t in r.retry :: t in stage.tasks
  {
    forall t | t in r.retry ensures t in stage.tasks { assert t in r.successful + r.retry + r.failed; }
  }

  lemma EarlierFailed(plan: Plan, st: Store, s: StageId, k: nat, n: nat, e: nat, t: TaskId)
    requires Good(plan, st) && Newest(st, s, n, e, t) && Unsuccessful(st, s, n, t)
    requires 1 <= k <= e && Ran(st, s, k, t) && SameGeneration(plan, st, s, k, e)
    ensures Unsuccessful(st, s, k, t)
  {
    hide Good, LeftOver, Linked;
    if k < n {
      OrdinaryOf(plan, st, s, n);
      RecordIntent(plan, st, s, n);
      assert SameGeneration(plan, st, s, k, n - 1);
    }
  }

  lemma RejectionLeavesMissing(plan: Plan, st: Store, s: StageId, a: nat)
    requires Good(plan, st) && a >= 2 && Rejected(st, s, a - 1)
    ensures OnlyMissing(plan, st, s, a, st.rejections[Key(s, a - 1)].tasks)
  {
    hide Good, LeftOver, Linked, DepsOk;
    RecordIntent(plan, st, s, a - 1);
    var tasks := st.rejections[Key(s, a - 1)].tasks;
    forall k: nat, t | 1 <= k < a && t in tasks && Ran(st, s, k, t) && SameGeneration(plan, st, s, k, a - 1)
      ensures Unsuccessful(st, s, k, t)
    {
      if k < a - 1 {
        OrdinaryOf(plan, st, s, a - 1);
        assert SameGeneration(plan, st, s, k, a - 2);
      }
    }
  }

  /** Under the ordering condition a retry's task set reads back as the tuple its intent writes. */
  lemma RetryTasksKept(plan: Plan, st: Store, s: StageId, a: nat)
    requires ValidPlan(plan) && OrdersAgree(plan) && Good(plan, st) && s in plan && a >= 2 && RetryTasks(plan, st, s, a).Some?
    ensures var tasks := RetryTasks(plan, st, s, a).value;
      && Settled(st, s, a - 1) && LeftOver(st, s, a) == Some(tasks) && Select(plan[s], tasks) == tasks
      && OnlyMissing(plan, st, s, a, tasks)
  {
    hide Good, ReadReceipt, Structural, OnlyMissing, Placed, Hopeless, Ordinary, DepsOk;
    ReceiptRead(plan, st, s, a - 1);
    if Key(s, a - 1) in st.receipts {
      ReceiptOf(plan, st, Key(s, a - 1));
      ReceiptLeavesMissing(plan, st, s, a);
    } else {
      RejectionLeavesMissing(plan, st, s, a);
      RecordIntent(plan, st, s, a - 1);
      IntentOf(plan, st, Key(s, a - 1));
    }
  }

  lemma WholeStage(plan: Plan, s: StageId)
    requires ValidPlan(plan) && s in plan
    ensures Selectable(plan[s], plan[s].tasks) && Select(plan[s], plan[s].tasks) == plan[s].tasks
  {
    KeepAll(plan[s].tasks, Members(plan[s].tasks));
  }

  /** Whatever the engine derives, the invariant admits. */
  lemma DerivedIsAuthorized(plan: Plan, st: Store, s: StageId, a: nat)
    requires ValidPlan(plan) && OrdersAgree(plan) && Good(plan, st) && s in plan && Derive(plan, st, s, a).Some?
    ensures var auth := Derive(plan, st, s, a).value;
      Authorized(plan, st, Intent(Key(s, a), auth.tasks, auth.deps))
  {
    hide Good, ValidPlan, OrdersAgree, DependencyJobs, FollowupDeps, RetryTasks, OrdinaryDeps, Selectable, Select, DepsOk, OnlyMissing, Linked, LeftOver;
    WholeStage(plan, s);
    JobsAreKnown(plan, st, s);
    if a >= 2 {
      if plan[s].dependsOn != [] && Key(s, a) in st.followups {
        FollowupRead(plan, st, s, a);
      } else {
        RetryTasksKept(plan, st, s, a);
        OrdinaryDepsLinked(plan, st, s, a, DependencyJobs(plan, st, s).value);
      }
    }
  }
}
