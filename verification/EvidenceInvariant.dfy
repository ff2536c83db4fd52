/**
  What every reachable store satisfies, stated over its raw documents without the strict
  readers, and the fact that none of it is lost when the store grows.
*/
module EvidenceInvariant {
  import opened Options
  import opened EvidenceStore
  import opened EvidenceReader

  predicate Recorded(st: Store, s: StageId, a: nat) { Key(s, a) in st.records }
  predicate Rejected(st: Store, s: StageId, a: nat) { Key(s, a) in st.rejections }
  predicate Settled(st: Store, s: StageId, a: nat) { Recorded(st, s, a) || Rejected(st, s, a) }

  /** A follow-up won its attempt: the published intent is its full-task replacement. */
  predicate Committed(plan: Plan, st: Store, s: StageId, a: nat) {
    && a > 1 && s in plan && plan[s].dependsOn != []
    && Key(s, a) in st.followups && Key(s, a) in st.intents
    && st.intents[Key(s, a)].tasks == plan[s].tasks && st.intents[Key(s, a)].deps == st.followups[Key(s, a)].deps
  }

  ghost predicate SameGeneration(plan: Plan, st: Store, s: StageId, from: nat, to: nat) {
    forall m | from < m <= to :: !Committed(plan, st, s, m)
  }

  /** The records of a stage as they lie in the store. */
  function Records(st: Store, s: StageId, upper: nat): seq<Record> {
    if upper == 0 then []
    else Records(st, s, upper - 1) + if Recorded(st, s, upper) then [st.records[Key(s, upper)]] else []
  }

  /** The task set the preceding attempt leaves to an ordinary retry. */
  function LeftOver(st: Store, s: StageId, a: nat): Option<seq<TaskId>>
    requires a >= 2
  {
    if Key(s, a - 1) in st.receipts && st.receipts[Key(s, a - 1)].decision == Retry then Some(st.receipts[Key(s, a - 1)].retry)
    else if Rejected(st, s, a - 1) then Some(st.rejections[Key(s, a - 1)].tasks)
    else None
  }

  ghost predicate HasJob(st: Store, d: StageId, job: JobId, above: nat) {
    exists k: nat :: k > above && Recorded(st, d, k) && st.records[Key(d, k)].job == job
  }

  ghost predicate DepsOk(plan: Plan, st: Store, s: StageId, deps: seq<JobId>)
    requires s in plan
  {
    && |deps| == |plan[s].dependsOn|
    && forall i | 0 <= i < |deps| :: HasJob(st, plan[s].dependsOn[i], deps[i], 0)
  }

  predicate Unused(st: Store, s: StageId, a: nat) { forall k | 1 <= k < a :: Rejected(st, s, k) }

  /** An ordinary retry keeps the dependency jobs of the attempt before it. */
  predicate Linked(st: Store, s: StageId, a: nat, deps: seq<JobId>)
    requires a >= 2
  {
    && (Recorded(st, s, a - 1) ==> st.records[Key(s, a - 1)].deps == deps)
    && (Rejected(st, s, a - 1) ==>
          (Key(s, a - 1) in st.intents && st.intents[Key(s, a - 1)].deps == deps) || Unused(st, s, a))
  }

  predicate Unsuccessful(st: Store, s: StageId, k: nat, t: TaskId) {
    TaskKey(Key(s, k), t) in st.evidence && !st.evidence[TaskKey(Key(s, k), t)].successful
  }

  predicate Ran(st: Store, s: StageId, k: nat, t: TaskId) { Recorded(st, s, k) && t in st.records[Key(s, k)].tasks }

  /** Every task to be retried has failed in each earlier attempt of its generation. */
  ghost predicate OnlyMissing(plan: Plan, st: Store, s: StageId, a: nat, tasks: seq<TaskId>)
    requires a >= 2
  {
    forall k: nat, t | 1 <= k < a && t in tasks && Ran(st, s, k, t) && SameGeneration(plan, st, s, k, a - 1) ::
      Unsuccessful(st, s, k, t)
  }

  ghost predicate Ordinary(plan: Plan, st: Store, s: StageId, a: nat, tasks: seq<TaskId>, deps: seq<JobId>)
    requires a >= 2
  {
    && Settled(st, s, a - 1) && LeftOver(st, s, a) == Some(tasks)
    && Linked(st, s, a, deps) && OnlyMissing(plan, st, s, a, tasks)
  }

  predicate Replaces(plan: Plan, st: Store, s: StageId, a: nat, tasks: seq<TaskId>, deps: seq<JobId>)
    requires s in plan
  {
    plan[s].dependsOn != [] && Key(s, a) in st.followups && tasks == plan[s].tasks && deps == st.followups[Key(s, a)].deps
  }

  /** An intent that some coordinator was entitled to derive. */
  ghost predicate Authorized(plan: Plan, st: Store, i: Intent) {
    var s, a := i.key.stage, i.key.attempt;
    && s in plan && 1 <= a <= plan[s].bound
    && Selectable(plan[s], i.tasks) && i.tasks == Select(plan[s], i.tasks)
    && DepsOk(plan, st, s, i.deps)
    && (a == 1 ==> i.tasks == plan[s].tasks)
    && (a > 1 ==> Ordinary(plan, st, s, a, i.tasks, i.deps) || Replaces(plan, st, s, a, i.tasks, i.deps))
  }

  ghost predicate RecordOk(st: Store, k: Key)
    requires k in st.records
  {
    var r := st.records[k];
    && r.key == k && k in st.intents && k !in st.rejections
    && r.tasks == st.intents[k].tasks && r.deps == st.intents[k].deps
  }

  predicate RejectionOk(st: Store, k: Key)
    requires k in st.rejections
  {
    st.rejections[k].key == k && k in st.intents && st.rejections[k].tasks == st.intents[k].tasks
  }

  /** A follow-up bound to authentic jobs and triggered by a retry, whether or not the two agree. */
  ghost predicate ReboundOk(plan: Plan, st: Store, f: Followup) {
    var s, a := f.key.stage, f.key.attempt;
    && s in plan && 1 < a <= plan[s].bound
    && DepsOk(plan, st, s, f.deps) && Distinct(f.deps) && f.triggerStage in plan[s].dependsOn
    && HasJob(st, f.triggerStage, f.triggerJob, 1)
    && (exists k: nat :: 1 <= k < a && Recorded(st, s, k))
  }

  ghost predicate FollowupOk(plan: Plan, st: Store, f: Followup) { ReboundOk(plan, st, f) && Timely(plan, f) }

  /** The newest accepted attempt of a task up to `e`; everything after it is settled without the task. */
  ghost predicate Newest(st: Store, s: StageId, k: nat, e: nat, t: TaskId) {
    && 1 <= k <= e && Ran(st, s, k, t)
    && forall m | k < m <= e :: Settled(st, s, m) && !Ran(st, s, m, t)
  }

  /** The newest attempt's verdict puts the task where the receipt has it. */
  ghost predicate Placed(st: Store, r: Receipt, k: nat, t: TaskId) {
    && Newest(st, r.key.stage, k, r.key.attempt, t) && TaskKey(Key(r.key.stage, k), t) in st.evidence
    && var e := st.evidence[TaskKey(Key(r.key.stage, k), t)];
    && (t in r.successful ==> e.successful)
    && (t in r.retry ==> !e.successful && e.retryable)
    && (t in r.failed ==> !e.successful)
  }

  /** Some failed task of the receipt failed for good. */
  ghost predicate Hopeless(st: Store, r: Receipt) {
    exists t, k: nat :: t in r.failed && Placed(st, r, k, t) && !st.evidence[TaskKey(Key(r.key.stage, k), t)].retryable
  }

  predicate InOrder(stage: Stage, tasks: seq<TaskId>) { tasks == Sorted(stage, Members(tasks)) }

  ghost predicate ReceiptOk(plan: Plan, st: Store, r: Receipt) {
    var s, e := r.key.stage, r.key.attempt;
    && s in plan && 1 <= e <= plan[s].bound && Settled(st, s, e) && Structural(plan[s], r)
    && InOrder(plan[s], r.successful) && InOrder(plan[s], r.retry)
    && (forall t | t in plan[s].tasks :: exists k: nat :: Placed(st, r, k, t))
    && (r.decision == Retry ==> e < plan[s].bound && (Rejected(st, s, e) ==> st.rejections[r.key].tasks == r.retry))
    && (r.decision == Failed && r.failed != [] && e < plan[s].bound ==> Hopeless(st, r))
  }

  predicate EvidenceOk(plan: Plan, st: Store, k: TaskKey)
    requires k in st.evidence
  {
    var e := st.evidence[k];
    && k.key.stage in plan && Ran(st, k.key.stage, k.key.attempt, k.task)
    && e.key == k.key && e.task == k.task && e.job == st.records[k.key].job && Authentic(plan[k.key.stage], e)
  }

  ghost predicate IntentsOk(plan: Plan, st: Store) {
    forall k | k in st.intents :: st.intents[k].key == k && Authorized(plan, st, st.intents[k])
  }

  ghost predicate RecordsOk(st: Store) {
    && (forall k | k in st.records :: RecordOk(st, k))
    && (forall k, l | k in st.records && l in st.records && st.records[k].job == st.records[l].job :: k == l)
    && (forall k | k in st.rejections :: RejectionOk(st, k))
  }

  ghost predicate FollowupsOk(plan: Plan, st: Store) {
    forall k | k in st.followups :: st.followups[k].key == k && FollowupOk(plan, st, st.followups[k])
  }

  ghost predicate ReceiptsOk(plan: Plan, st: Store) {
    forall k | k in st.receipts :: st.receipts[k].key == k && ReceiptOk(plan, st, st.receipts[k])
  }

  ghost predicate EvidencesOk(plan: Plan, st: Store) {
    forall k | k in st.evidence :: EvidenceOk(plan, st, k)
  }

  ghost predicate Good(plan: Plan, st: Store) {
    IntentsOk(plan, st) && RecordsOk(st) && FollowupsOk(plan, st) && ReceiptsOk(plan, st) && EvidencesOk(plan, st)
  }

  // ---------------------------------------------------------------- growth

  /** Write-once documents only accumulate. */
  ghost predicate Extends(st: Store, st': Store) {
    && (forall k | k in st.intents :: k in st'.intents && st'.intents[k] == st.intents[k])
    && (forall k | k in st.records :: k in st'.records && st'.records[k] == st.records[k])
    && (forall k | k in st.rejections :: k in st'.rejections && st'.rejections[k] == st.rejections[k])
    && (forall k | k in st.followups :: k in st'.followups && st'.followups[k] == st.followups[k])
    && (forall k | k in st.receipts :: k in st'.receipts && st'.receipts[k] == st.receipts[k])
    && (forall k | k in st.evidence :: k in st'.evidence && st'.evidence[k] == st.evidence[k])
  }

  /** Records and rejections stay apart, and a retry receipt repeats the rejection it advances over. */
  ghost predicate Coherent(st: Store) {
    && (forall k | k in st.records :: k !in st.rejections)
    && (forall k | k in st.receipts && k in st.rejections && st.receipts[k].decision == Retry ::
          st.receipts[k].retry == st.rejections[k].tasks)
  }

  lemma CommittedGrows(plan: Plan, st: Store, st': Store, s: StageId, from: nat, to: nat)
    requires Extends(st, st') && SameGeneration(plan, st', s, from, to)
    ensures SameGeneration(plan, st, s, from, to)
  {
    forall m | from < m <= to ensures !Committed(plan, st, s, m) {
      assert !Committed(plan, st', s, m);
    }
  }

  lemma SettledGrows(st: Store, st': Store, s: StageId, a: nat)
    requires Extends(st, st') && Coherent(st') && Settled(st, s, a)
    ensures Settled(st', s, a)
    ensures Recorded(st', s, a) <==> Recorded(st, s, a)
    ensures Rejected(st', s, a) <==> Rejected(st, s, a)
  {
  }

  /** A settled attempt has an intent, which is its generation's start or an ordinary retry. */
  lemma SettledIntent(plan: Plan, st: Store, s: StageId, a: nat)
    requires IntentsOk(plan, st) && RecordsOk(st) && Settled(st, s, a)
    ensures Key(s, a) in st.intents && Authorized(plan, st, st.intents[Key(s, a)]) && st.intents[Key(s, a)].key == Key(s, a)
    ensures a >= 2 && !Committed(plan, st, s, a) ==>
              Ordinary(plan, st, s, a, st.intents[Key(s, a)].tasks, st.intents[Key(s, a)].deps)
  {
    assert Recorded(st, s, a) ==> RecordOk(st, Key(s, a));
    assert Rejected(st, s, a) ==> RejectionOk(st, Key(s, a));
    hide Ordinary;
  }

  /** Down to the start of its generation, everything before an ordinary retry is settled. */
  lemma {:induction false} SettledChain(plan: Plan, st: Store, s: StageId, a: nat, k: nat)
    requires IntentsOk(plan, st) && RecordsOk(st) && Settled(st, s, a) && 1 <= k <= a && SameGeneration(plan, st, s, k, a)
    ensures Settled(st, s, k)
    decreases a
  {
    hide IntentsOk, RecordsOk, Committed, Settled, LeftOver, Linked, OnlyMissing, Authorized;
    if k < a {
      SettledIntent(plan, st, s, a);
      SettledChain(plan, st, s, a - 1, k);
    }
  }

  lemma LeftOverGrows(st: Store, st': Store, s: StageId, a: nat)
    requires a >= 2 && Extends(st, st') && Coherent(st') && LeftOver(st, s, a).Some?
    ensures LeftOver(st', s, a) == LeftOver(st, s, a)
  {
    assert Key(s, a - 1) in st.receipts ==> Key(s, a - 1) in st'.receipts;
  }

  lemma LinkedGrows(st: Store, st': Store, s: StageId, a: nat, deps: seq<JobId>)
    requires a >= 2 && Extends(st, st') && Coherent(st') && Settled(st, s, a - 1) && Linked(st, s, a, deps)
    ensures Linked(st', s, a, deps)
  {
    SettledGrows(st, st', s, a - 1);
    assert Key(s, a - 1) in st.intents ==> Key(s, a - 1) in st'.intents;
    if Unused(st, s, a) {
      forall k: nat | 1 <= k < a ensures Rejected(st', s, k) { assert Rejected(st, s, k); }
    }
  }

  lemma OnlyMissingGrows(plan: Plan, st: Store, st': Store, s: StageId, a: nat, tasks: seq<TaskId>)
    requires a >= 2 && IntentsOk(plan, st) && RecordsOk(st) && Extends(st, st') && Coherent(st')
    requires Settled(st, s, a - 1) && OnlyMissing(plan, st, s, a, tasks)
    ensures OnlyMissing(plan, st', s, a, tasks)
  {
    hide IntentsOk, RecordsOk, Coherent;
    forall k: nat, t | 1 <= k < a && t in tasks && Ran(st', s, k, t) && SameGeneration(plan, st', s, k, a - 1)
      ensures Unsuccessful(st', s, k, t)
    {
      CommittedGrows(plan, st, st', s, k, a - 1);
      SettledChain(plan, st, s, a - 1, k);
      SettledGrows(st, st', s, k);
      assert Ran(st, s, k, t);
      assert Unsuccessful(st, s, k, t);
    }
  }

  lemma DepsGrow(plan: Plan, st: Store, st': Store, s: StageId, deps: seq<JobId>)
    requires s in plan && Extends(st, st') && DepsOk(plan, st, s, deps)
    ensures DepsOk(plan, st', s, deps)
  {
    forall i | 0 <= i < |deps| ensures HasJob(st', plan[s].dependsOn[i], deps[i], 0) {
      HasJobGrows(st, st', plan[s].dependsOn[i], deps[i], 0);
    }
  }

  lemma HasJobGrows(st: Store, st': Store, d: StageId, job: JobId, above: nat)
    requires Extends(st, st') && HasJob(st, d, job, above)
    ensures HasJob(st', d, job, above)
  {
    var k: nat :| k > above && Recorded(st, d, k) && st.records[Key(d, k)].job == job;
    assert Recorded(st', d, k);
  }

  /** An authorization once derivable stays one, whatever is published meanwhile. */
  lemma AuthorizedGrows(plan: Plan, st: Store, st': Store, i: Intent)
    requires IntentsOk(plan, st) && RecordsOk(st) && Extends(st, st') && Coherent(st') && Authorized(plan, st, i)
    ensures Authorized(plan, st', i)
  {
    hide IntentsOk, RecordsOk, Coherent, DepsOk, OnlyMissing, Linked, LeftOver;
    var s, a := i.key.stage, i.key.attempt;
    DepsGrow(plan, st, st', s, i.deps);
    if a > 1 && Ordinary(plan, st, s, a, i.tasks, i.deps) {
      SettledGrows(st, st', s, a - 1);
      LeftOverGrows(st, st', s, a);
      LinkedGrows(st, st', s, a, i.deps);
      OnlyMissingGrows(plan, st, st', s, a, i.tasks);
    }
  }

  lemma NewestGrows(st: Store, st': Store, s: StageId, k: nat, e: nat, t: TaskId)
    requires Extends(st, st') && Coherent(st') && Newest(st, s, k, e, t)
    ensures Newest(st', s, k, e, t)
  {
    forall m | k < m <= e ensures Settled(st', s, m) && !Ran(st', s, m, t) {
      SettledGrows(st, st', s, m);
      assert !Ran(st, s, m, t);
    }
  }

  lemma PlacedGrows(st: Store, st': Store, r: Receipt, k: nat, t: TaskId)
    requires Extends(st, st') && Coherent(st') && Placed(st, r, k, t)
    ensures Placed(st', r, k, t)
  {
    hide Newest, Coherent;
    NewestGrows(st, st', r.key.stage, k, r.key.attempt, t);
  }

  lemma HopelessGrows(st: Store, st': Store, r: Receipt)
    requires Extends(st, st') && Coherent(st') && Hopeless(st, r)
    ensures Hopeless(st', r)
  {
    var t, k: nat :| t in r.failed && Placed(st, r, k, t) && !st.evidence[TaskKey(Key(r.key.stage, k), t)].retryable;
    PlacedGrows(st, st', r, k, t);
  }

  lemma ReceiptGrows(plan: Plan, st: Store, st': Store, r: Receipt)
    requires Extends(st, st') && Coherent(st') && ReceiptOk(plan, st, r)
    ensures ReceiptOk(plan, st', r)
  {
    SettledGrows(st, st', r.key.stage, r.key.attempt);
    hide Structural, Coherent, Placed, Hopeless, InOrder;
    forall t | t in plan[r.key.stage].tasks ensures exists k: nat :: Placed(st', r, k, t) {
      var k: nat :| Placed(st, r, k, t);
      PlacedGrows(st, st', r, k, t);
    }
    if Hopeless(st, r) { HopelessGrows(st, st', r); }
  }

  lemma FollowupGrows(plan: Plan, st: Store, st': Store, f: Followup)
    requires Extends(st, st') && ReboundOk(plan, st, f)
    ensures ReboundOk(plan, st', f)
  {
    var s := f.key.stage;
    DepsGrow(plan, st, st', s, f.deps);
    HasJobGrows(st, st', f.triggerStage, f.triggerJob, 1);
    hide DepsOk, HasJob;
    var k: nat :| 1 <= k < f.key.attempt && Recorded(st, s, k);
    assert Recorded(st', s, k);
  }

  lemma EvidenceGrows(plan: Plan, st: Store, st': Store, k: TaskKey)
    requires Extends(st, st') && k in st.evidence && EvidenceOk(plan, st, k)
    ensures k in st'.evidence && EvidenceOk(plan, st', k)
  {
  }
}
