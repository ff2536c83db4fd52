/**
  On every store that satisfies the invariant the strict readers accept everything: each
  returns exactly the documents that lie in the store. A document accepted once can therefore
  never be refused later.
*/
module EvidenceAuthentication {
  import opened Options
  import opened EvidenceStore
  import opened EvidenceReader
  import opened EvidenceInvariant

  // -------------------------------------------------------- stored records

  lemma {:induction false} RecordsContain(st: Store, s: StageId, upper: nat, k: nat)
    requires 1 <= k <= upper && Recorded(st, s, k)
    ensures st.records[Key(s, k)] in Records(st, s, upper)
  {
    if k < upper { RecordsContain(st, s, upper - 1, k); }
  }

  lemma {:induction false} RecordsStored(st: Store, s: StageId, upper: nat, i: nat)
    requires RecordsOk(st) && i < |Records(st, s, upper)|
    ensures var r := Records(st, s, upper)[i];
            r.key.stage == s && 1 <= r.key.attempt <= upper && r.key in st.records && st.records[r.key] == r
  {
    if i < |Records(st, s, upper - 1)| {
      RecordsStored(st, s, upper - 1, i);
    } else {
      assert RecordOk(st, Key(s, upper));
    }
  }

  lemma {:induction false} RecordsAscend(st: Store, s: StageId, upper: nat, i: nat, j: nat)
    requires RecordsOk(st) && i < j < |Records(st, s, upper)|
    ensures Records(st, s, upper)[i].key.attempt < Records(st, s, upper)[j].key.attempt
  {
    if j < |Records(st, s, upper - 1)| {
      RecordsAscend(st, s, upper - 1, i, j);
    } else {
      assert RecordOk(st, Key(s, upper));
      RecordsStored(st, s, upper - 1, i);
    }
  }

  /** A stored job is found at exactly one place among its stage's records. */
  lemma JobFound(plan: Plan, st: Store, d: StageId, job: JobId, above: nat) returns (i: nat)
    requires Good(plan, st) && d in plan && HasJob(st, d, job, above)
    ensures var all := Records(st, d, plan[d].bound);
      && i < |all| && all[i].job == job && all[i].key.attempt > above
      && forall j | 0 <= j < |all| :: all[j].job == job ==> j == i
  {
    var all := Records(st, d, plan[d].bound);
    var k: nat :| k > above && Recorded(st, d, k) && st.records[Key(d, k)].job == job;
    AttemptBounded(plan, st, d, k);
    hide HasJob, IntentsOk, FollowupsOk, ReceiptsOk, EvidencesOk;
    RecordsContain(st, d, plan[d].bound, k);
    i :| 0 <= i < |all| && all[i] == st.records[Key(d, k)];
    assert RecordOk(st, Key(d, k));
    forall j | 0 <= j < |all| && all[j].job == job ensures j == i {
      RecordsStored(st, d, plan[d].bound, j);
      assert all[j].key == Key(d, k);
      if j < i { RecordsAscend(st, d, plan[d].bound, j, i); }
      if i < j { RecordsAscend(st, d, plan[d].bound, i, j); }
    }
  }

  lemma AttemptBounded(plan: Plan, st: Store, s: StageId, k: nat)
    requires Good(plan, st) && Settled(st, s, k)
    ensures s in plan && 1 <= k <= plan[s].bound
  {
    hide FollowupsOk, ReceiptsOk, EvidencesOk, IntentsOk, RecordsOk;
    SettledIntent(plan, st, s, k);
  }

  // --------------------------------------------------------- task evidence

  /** No document of a good store is out of place, and only a task's newest evidence is its latest. */
  lemma {:induction false} EvidenceReadable(plan: Plan, st: Store, s: StageId, upper: nat, t: TaskId)
    requires s in plan && RecordsOk(st) && EvidencesOk(plan, st)
    ensures EvidenceOf(plan[s], st, Records(st, s, upper), t).Some?
  {
    if upper > 0 {
      EvidenceReadable(plan, st, s, upper - 1, t);
      EvidenceLast(plan, st, s, upper, t);
    }
  }

  /** One more attempt adds its own evidence, if it has any. */
  lemma EvidenceLast(plan: Plan, st: Store, s: StageId, upper: nat, t: TaskId)
    requires s in plan && RecordsOk(st) && EvidencesOk(plan, st) && upper > 0
    requires EvidenceOf(plan[s], st, Records(st, s, upper - 1), t).Some?
    ensures var before := EvidenceOf(plan[s], st, Records(st, s, upper - 1), t).value;
      EvidenceOf(plan[s], st, Records(st, s, upper), t) ==
        Some(if Ran(st, s, upper, t) && TaskKey(Key(s, upper), t) in st.evidence
             then before + [st.evidence[TaskKey(Key(s, upper), t)]] else before)
  {
    var all := Records(st, s, upper);
    if !Recorded(st, s, upper) {
      assert all == Records(st, s, upper - 1);
    } else {
      assert all[..|all| - 1] == Records(st, s, upper - 1);
      assert RecordOk(st, Key(s, upper));
      assert TaskKey(Key(s, upper), t) in st.evidence ==> EvidenceOk(plan, st, TaskKey(Key(s, upper), t));
    }
  }

  /** The task's evidence up to an attempt ends with that of attempt `k`. */
  ghost predicate EndsWith(plan: Plan, st: Store, s: StageId, k: nat, upper: nat, t: TaskId)
    requires s in plan && TaskKey(Key(s, k), t) in st.evidence
  {
    var found := EvidenceOf(plan[s], st, Records(st, s, upper), t);
    found.Some? && found.value != [] && found.value[|found.value| - 1] == st.evidence[TaskKey(Key(s, k), t)]
  }

  lemma EvidenceAtNewest(plan: Plan, st: Store, s: StageId, k: nat, t: TaskId)
    requires s in plan && RecordsOk(st) && EvidencesOk(plan, st) && k >= 1 && Ran(st, s, k, t) && TaskKey(Key(s, k), t) in st.evidence
    ensures EndsWith(plan, st, s, k, k, t)
  {
    hide RecordsOk, EvidencesOk, EvidenceOf, Records;
    EvidenceReadable(plan, st, s, k - 1, t);
    EvidenceLast(plan, st, s, k, t);
  }

  /** An attempt without the task adds nothing. */
  lemma EvidenceSkips(plan: Plan, st: Store, s: StageId, k: nat, upper: nat, t: TaskId)
    requires s in plan && RecordsOk(st) && EvidencesOk(plan, st) && TaskKey(Key(s, k), t) in st.evidence
    requires upper >= 1 && !Ran(st, s, upper, t) && EndsWith(plan, st, s, k, upper - 1, t)
    ensures EndsWith(plan, st, s, k, upper, t)
  {
    hide RecordsOk, EvidencesOk, EvidenceOf, Records;
    EvidenceLast(plan, st, s, upper, t);
  }

  lemma {:induction false} EvidenceNewest(plan: Plan, st: Store, s: StageId, k: nat, upper: nat, t: TaskId)
    requires s in plan && RecordsOk(st) && EvidencesOk(plan, st) && Newest(st, s, k, upper, t) && TaskKey(Key(s, k), t) in st.evidence
    ensures EndsWith(plan, st, s, k, upper, t)
    decreases upper
  {
    hide RecordsOk, EvidencesOk, EndsWith, Settled, Ran;
    if k == upper {
      EvidenceAtNewest(plan, st, s, k, t);
    } else {
      assert Newest(st, s, k, upper - 1, t);
      EvidenceNewest(plan, st, s, k, upper - 1, t);
      EvidenceSkips(plan, st, s, k, upper, t);
    }
  }

  lemma PlacedIsBacked(plan: Plan, st: Store, r: Receipt, k: nat, t: TaskId)
    requires r.key.stage in plan && RecordsOk(st) && EvidencesOk(plan, st) && Placed(st, r, k, t)
    ensures var records := Records(st, r.key.stage, r.key.attempt);
      && Latest(plan[r.key.stage], st, records, t) == Some(st.evidence[TaskKey(Key(r.key.stage, k), t)])
      && (t in r.successful ==> Backed(plan[r.key.stage], st, records, t, Complete))
      && (t in r.retry ==> Backed(plan[r.key.stage], st, records, t, Retry))
      && (t in r.failed ==> Backed(plan[r.key.stage], st, records, t, Failed))
  {
    hide RecordsOk, EvidencesOk, Newest, EvidenceOf;
    EvidenceNewest(plan, st, r.key.stage, k, r.key.attempt, t);
    var found := EvidenceOf(plan[r.key.stage], st, Records(st, r.key.stage, r.key.attempt), t).value;
    assert found[|found| - 1] in found;
  }

  lemma ReceiptSupported(plan: Plan, st: Store, r: Receipt)
    requires RecordsOk(st) && EvidencesOk(plan, st) && ReceiptOk(plan, st, r)
    ensures Supported(plan[r.key.stage], st, Records(st, r.key.stage, r.key.attempt), r)
  {
    var stage, records := plan[r.key.stage], Records(st, r.key.stage, r.key.attempt);
    hide RecordsOk, EvidencesOk, Backed, Latest, Placed;
    forall t | t in r.successful + r.retry + r.failed
      ensures (t in r.successful ==> Backed(stage, st, records, t, Complete)) && (t in r.retry ==> Backed(stage, st, records, t, Retry))
      ensures t in r.failed ==> Backed(stage, st, records, t, Failed)
    {
      var k: nat :| Placed(st, r, k, t);
      PlacedIsBacked(plan, st, r, k, t);
    }
    if r.decision == Failed && r.failed != [] && r.key.attempt < stage.bound { HopelessIsLatest(plan, st, r); }
  }

  lemma HopelessIsLatest(plan: Plan, st: Store, r: Receipt)
    requires r.key.stage in plan && RecordsOk(st) && EvidencesOk(plan, st) && Hopeless(st, r)
    ensures var records := Records(st, r.key.stage, r.key.attempt);
      exists t | t in r.failed :: Latest(plan[r.key.stage], st, records, t).Some? && !Latest(plan[r.key.stage], st, records, t).value.retryable
  {
    var t, k: nat :| t in r.failed && Placed(st, r, k, t) && !st.evidence[TaskKey(Key(r.key.stage, k), t)].retryable;
    hide RecordsOk, EvidencesOk, Backed, Latest, Placed;
    PlacedIsBacked(plan, st, r, k, t);
  }

  lemma IntentOf(plan: Plan, st: Store, k: Key)
    requires Good(plan, st) && k in st.intents
    ensures st.intents[k].key == k && Authorized(plan, st, st.intents[k])
  {
  }

  lemma FollowupOf(plan: Plan, st: Store, k: Key)
    requires Good(plan, st) && k in st.followups
    ensures st.followups[k].key == k && FollowupOk(plan, st, st.followups[k])
  {
  }

  lemma ReceiptOf(plan: Plan, st: Store, k: Key)
    requires Good(plan, st) && k in st.receipts
    ensures st.receipts[k].key == k && ReceiptOk(plan, st, st.receipts[k])
    ensures Supported(plan[k.stage], st, Records(st, k.stage, k.attempt), st.receipts[k])
  {
    hide Supported, Structural, InOrder, Placed, Hopeless;
    ReceiptSupported(plan, st, st.receipts[k]);
  }

  // ------------------------------------------------------ the strict readers

  lemma {:induction false} RecordsRead(plan: Plan, st: Store, s: StageId, upper: nat)
    requires ValidPlan(plan) && Good(plan, st) && s in plan
    ensures RecordsUpTo(plan, st, s, upper) == Some(Records(st, s, upper))
    decreases plan[s].rank, upper, 3
  {
    hide ValidPlan, Good, RecordAccepted;
    if upper > 0 {
      RecordsRead(plan, st, s, upper - 1);
      if Recorded(st, s, upper) {
        RecordRead(plan, st, s, upper);
      } else {
        assert Records(st, s, upper) == Records(st, s, upper - 1);
      }
    }
  }

  lemma {:induction false} RecordRead(plan: Plan, st: Store, s: StageId, a: nat)
    requires ValidPlan(plan) && Good(plan, st) && s in plan && a >= 1 && Recorded(st, s, a)
    ensures RecordAccepted(plan, st, s, a)
    decreases plan[s].rank, a, 2
  {
    hide ValidPlan, IntentsOk, FollowupsOk, ReceiptsOk, EvidencesOk, CommittedContract, DependenciesAccepted, Select, DepsOk;
    assert RecordOk(st, Key(s, a));
    SettledIntent(plan, st, s, a);
    ContractRead(plan, st, s, a);
    DependenciesRead(plan, st, s, a, st.records[Key(s, a)].deps);
  }

  lemma {:induction false} DependenciesRead(plan: Plan, st: Store, s: StageId, a: nat, deps: seq<JobId>)
    requires ValidPlan(plan) && Good(plan, st) && s in plan && DepsOk(plan, st, s, deps)
    ensures DependenciesAccepted(plan, st, s, deps)
    decreases plan[s].rank, a, 0
  {
    hide Good, RecordsUpTo;
    forall i | 0 <= i < |deps|
      ensures plan[s].dependsOn[i] in plan && AllRecords(plan, st, plan[s].dependsOn[i]).Some?
      ensures exists r | r in AllRecords(plan, st, plan[s].dependsOn[i]).value :: r.job == deps[i]
    {
      var d := plan[s].dependsOn[i];
      assert d in plan[s].dependsOn;
      RecordsRead(plan, st, d, plan[d].bound);
      var n := JobFound(plan, st, d, deps[i], 0);
      assert Records(st, d, plan[d].bound)[n] in Records(st, d, plan[d].bound);
    }
  }

  lemma {:induction false} FollowupRead(plan: Plan, st: Store, s: StageId, a: nat)
    requires ValidPlan(plan) && Good(plan, st) && s in plan && Key(s, a) in st.followups
    ensures FollowupDeps(plan, st, s, a) == Some(st.followups[Key(s, a)].deps)
    decreases plan[s].rank, a, 0
  {
    hide Good, AllRecords, SlotAccepted, HasJob;
    var f := st.followups[Key(s, a)];
    FollowupOf(plan, st, Key(s, a));
    forall i | 0 <= i < |f.deps|
      ensures plan[s].dependsOn[i] in plan && AllRecords(plan, st, plan[s].dependsOn[i]).Some?
      ensures SlotAccepted(AllRecords(plan, st, plan[s].dependsOn[i]).value, f, plan[s].dependsOn[i], f.deps[i])
    {
      var d := plan[s].dependsOn[i];
      assert d in plan[s].dependsOn;
      SlotRead(plan, st, f, d, f.deps[i]);
    }
  }

  lemma {:induction false} SlotRead(plan: Plan, st: Store, f: Followup, d: StageId, job: JobId)
    requires ValidPlan(plan) && Good(plan, st) && d in plan && HasJob(st, d, job, 0)
    requires d == f.triggerStage ==> job == f.triggerJob && HasJob(st, d, job, 1)
    ensures AllRecords(plan, st, d).Some? && SlotAccepted(AllRecords(plan, st, d).value, f, d, job)
    decreases plan[d].rank, plan[d].bound, 4
  {
    hide Good, ValidPlan, HasJob, RecordsUpTo;
    RecordsRead(plan, st, d, plan[d].bound);
    var n := JobFound(plan, st, d, job, if d == f.triggerStage then 1 else 0);
  }

  lemma {:induction false} OrdinaryRead(plan: Plan, st: Store, s: StageId, a: nat)
    requires ValidPlan(plan) && Good(plan, st) && s in plan && a >= 2
    ensures OrdinaryTasks(plan, st, s, a) == Some(LeftOver(st, s, a))
    decreases plan[s].rank, a, 0
  {
    hide ValidPlan, ReadReceipt, IntentsOk, FollowupsOk, ReceiptsOk, EvidencesOk;
    ReceiptRead(plan, st, s, a - 1);
    assert Rejected(st, s, a - 1) ==> RejectionOk(st, Key(s, a - 1));
  }

  /** The committed contract of an attempt is its intent, and a follow-up's exactly when one committed. */
  lemma {:induction false} ContractRead(plan: Plan, st: Store, s: StageId, a: nat)
    requires ValidPlan(plan) && Good(plan, st) && s in plan && a >= 1 && Key(s, a) in st.intents
    ensures CommittedContract(plan, st, s, a) ==
      Some(Contract(st.intents[Key(s, a)].tasks, if Committed(plan, st, s, a) then Some(st.intents[Key(s, a)].deps) else None))
    decreases plan[s].rank, a, 1
  {
    hide Good, ValidPlan, FollowupDeps, OrdinaryTasks, OnlyMissing, Linked, DepsOk, Selectable, Select, Settled;
    IntentOf(plan, st, Key(s, a));
    if Key(s, a) in st.followups { FollowupRead(plan, st, s, a); }
    if a >= 2 { OrdinaryRead(plan, st, s, a); }
  }

  lemma {:induction false} ReceiptRead(plan: Plan, st: Store, s: StageId, a: nat)
    requires ValidPlan(plan) && Good(plan, st) && s in plan
    ensures ReadReceipt(plan, st, s, a) == Some(if Key(s, a) in st.receipts then Some(st.receipts[Key(s, a)]) else None)
    decreases plan[s].rank, a, 5
  {
    hide Good, ValidPlan, Supported, Structural, RecordsUpTo, Placed, InOrder, Hopeless, Settled;
    if Key(s, a) in st.receipts {
      ReceiptOf(plan, st, Key(s, a));
      RecordsRead(plan, st, s, a);
    }
  }
}
