/**
  The evidence invariant holds in every reachable state, and what follows from it over
  whole runs: evidence stability, generation isolation, final successes and retry paths
  that no failure can land on.
*/
module EvidenceSafety {
  import opened Options
  import opened EvidenceStore
  import opened EvidenceReader
  import opened EvidenceEngine
  import opened EvidenceProtocol
  import opened EvidenceInvariant
  import opened EvidenceAuthentication
  import opened EvidenceDerivation
  import opened EvidenceDrafts
  import opened EvidenceReconciliation

  /** What coordinators have derived or read, and may still publish, was justified and remains so. */
  ghost predicate PendingOk(plan: Plan, x: State) {
    && (forall g | g in x.gathered :: GatheringOk(plan, x.store, g))
    && (forall f | f in x.followups :: ReboundOk(plan, x.store, f))
    && (forall d | d in x.drafts :: DraftOk(plan, x.store, d))
    && (forall i | i in x.intents :: Authorized(plan, x.store, i))
    && (forall n | n in x.snapshots :: ScanOk(plan, x.store, n))
    && (forall q | q in x.inquiries :: InquiryOk(plan, x.store, q))
    && (forall r | r in x.receipts :: ReceiptOk(plan, x.store, r))
  }

  ghost predicate Sound(plan: Plan, x: State) { Good(plan, x.store) && PendingOk(plan, x) }

  // ------------------------------------------------------- one more document

  ghost predicate NewDocsOk(plan: Plan, st: Store, st': Store) {
    && (forall k | k in st'.intents && k !in st.intents :: st'.intents[k].key == k && Authorized(plan, st', st'.intents[k]))
    && (forall k | k in st'.records && k !in st.records ::
          RecordOk(st', k) && forall l | l in st'.records && l != k :: st'.records[l].job != st'.records[k].job)
    && (forall k | k in st'.rejections && k !in st.rejections :: RejectionOk(st', k))
    && (forall k | k in st'.followups && k !in st.followups :: st'.followups[k].key == k && FollowupOk(plan, st', st'.followups[k]))
    && (forall k | k in st'.receipts && k !in st.receipts :: st'.receipts[k].key == k && ReceiptOk(plan, st', st'.receipts[k]))
    && (forall k | k in st'.evidence && k !in st.evidence :: EvidenceOk(plan, st', k))
  }

  lemma IntentsGrow(plan: Plan, st: Store, st': Store)
    requires IntentsOk(plan, st) && RecordsOk(st) && Extends(st, st') && Coherent(st') && NewDocsOk(plan, st, st')
    ensures IntentsOk(plan, st')
  {
    hide Authorized, RecordOk, RejectionOk, FollowupOk, ReceiptOk, EvidenceOk, Coherent;
    forall k | k in st'.intents ensures st'.intents[k].key == k && Authorized(plan, st', st'.intents[k]) {
      if k in st.intents { AuthorizedGrows(plan, st, st', st.intents[k]); }
    }
  }

  lemma RecordsGrow(plan: Plan, st: Store, st': Store)
    requires RecordsOk(st) && Extends(st, st') && Coherent(st') && NewDocsOk(plan, st, st')
    ensures RecordsOk(st')
  {
    hide Authorized, FollowupOk, ReceiptOk, EvidenceOk;
    forall k | k in st'.records ensures RecordOk(st', k) { if k in st.records { assert RecordOk(st, k); } }
    forall k | k in st'.rejections ensures RejectionOk(st', k) { if k in st.rejections { assert RejectionOk(st, k); } }
  }

  lemma RestGrows(plan: Plan, st: Store, st': Store)
    requires FollowupsOk(plan, st) && ReceiptsOk(plan, st) && EvidencesOk(plan, st)
    requires Extends(st, st') && Coherent(st') && NewDocsOk(plan, st, st')
    ensures FollowupsOk(plan, st') && ReceiptsOk(plan, st') && EvidencesOk(plan, st')
  {
    hide Authorized, RecordOk, RejectionOk, ReboundOk, Timely, ReceiptOk, EvidenceOk, Coherent;
    forall k | k in st'.followups ensures st'.followups[k].key == k && FollowupOk(plan, st', st'.followups[k]) {
      if k in st.followups { FollowupGrows(plan, st, st', st.followups[k]); }
    }
    forall k | k in st'.receipts ensures st'.receipts[k].key == k && ReceiptOk(plan, st', st'.receipts[k]) {
      if k in st.receipts { ReceiptGrows(plan, st, st', st.receipts[k]); }
    }
    forall k | k in st'.evidence ensures EvidenceOk(plan, st', k) {
      if k in st.evidence { EvidenceGrows(plan, st, st', k); }
    }
  }

  /** A store that grows by justified documents stays good, and so does all that is pending. */
  lemma SoundGrows(plan: Plan, x: State, y: State)
    requires Sound(plan, x) && y == x.(store := y.store)
    requires Extends(x.store, y.store) && Coherent(y.store) && NewDocsOk(plan, x.store, y.store)
    ensures Sound(plan, y)
  {
    hide IntentsOk, RecordsOk, FollowupsOk, ReceiptsOk, EvidencesOk, Extends, Coherent, NewDocsOk, PendingOk;
    IntentsGrow(plan, x.store, y.store);
    RecordsGrow(plan, x.store, y.store);
    RestGrows(plan, x.store, y.store);
    PendingGrows(plan, x, y);
  }

  lemma PendingGrows(plan: Plan, x: State, y: State)
    requires IntentsOk(plan, x.store) && RecordsOk(x.store) && PendingOk(plan, x) && y == x.(store := y.store)
    requires Extends(x.store, y.store) && Coherent(y.store)
    ensures PendingOk(plan, y)
  {
    hide IntentsOk, RecordsOk, Extends, Coherent, Authorized, DraftOk, ScanOk, InquiryOk, ReceiptOk, GatheringOk, ReboundOk;
    forall g | g in y.gathered ensures GatheringOk(plan, y.store, g) { GatheringGrows(plan, x.store, y.store, g); }
    forall f | f in y.followups ensures ReboundOk(plan, y.store, f) { FollowupGrows(plan, x.store, y.store, f); }
    forall d | d in y.drafts ensures DraftOk(plan, y.store, d) { DraftGrows(plan, x.store, y.store, d); }
    forall i | i in y.intents ensures Authorized(plan, y.store, i) { AuthorizedGrows(plan, x.store, y.store, i); }
    forall n | n in y.snapshots ensures ScanOk(plan, y.store, n) { ScanGrows(plan, x.store, y.store, n); }
    forall q | q in y.inquiries ensures InquiryOk(plan, y.store, q) { InquiryGrows(plan, x.store, y.store, q); }
    forall r | r in y.receipts ensures ReceiptOk(plan, y.store, r) { ReceiptGrows(plan, x.store, y.store, r); }
  }

  // ------------------------------------------------------------- the steps

  /** Every read of a derivation or reconciliation leaves what it has read justified. */
  lemma KeepsRead(plan: Plan, x: State, y: State, read: Read)
    requires ValidPlan(plan) && OrdersAgree(plan) && Sound(plan, x) && Reads(plan, x, y, read)
    ensures Sound(plan, y) && y.store == x.store
  {
    hide Good, ValidPlan, OrdersAgree, Opens, Moves, Ends, Takes, Passes, Settles, Judges, Advances, Decides,
         Gathers, UnderWay, Rebinds, Authorized, DraftOk, ScanOk, InquiryOk, ReceiptOk, GatheringOk, ReboundOk;
    match read
    case GatherJob(g, h) => assert g.jobs == [] || g in x.gathered by { StartedOrUnderWay(x, g); } GathersOk(plan, x.store, g, h);
    case DeriveFollowup(f, retried) => RebindsOk(plan, x, f, retried);
    case OpenDraft(d) => OpensOk(plan, x, d);
    case MoveDraft(d, e) => MovesOk(plan, x.store, d, e);
    case EndDraft(d, i) => EndsOk(plan, x.store, d, i);
    case TakeSnapshot(n) => SnapshotTaken(plan, x.store, n);
    case PassFollowup(n, m) => PassesOk(plan, x.store, n, m);
    case SettleGeneration(n, q) => SettlesOk(plan, x.store, n, q);
    case JudgeTask(q, r, t) => JudgesOk(plan, x.store, q, r, t);
    case AdvanceChain(q, r) => AdvancesOk(plan, x.store, q, r);
    case DeriveReceipt(q, files, r) => DecidesOk(plan, x.store, q, files, r);
  }

  lemma StartedOrUnderWay(x: State, g: Gathering)
    requires UnderWay(x, g)
    ensures g.jobs == [] || g in x.gathered
  {
  }

  lemma KeepsPublishedIntent(plan: Plan, x: State, y: State, intent: Intent)
    requires Sound(plan, x) && PublishesIntent(x, y, intent)
    ensures Sound(plan, y)
  {
    hide Good, Authorized, DraftOk, ScanOk, InquiryOk, ReceiptOk, GatheringOk, ReboundOk;
    GoodParts(plan, x.store);
    hide IntentsOk, RecordsOk, EvidencesOk;
    AuthorizedGrows(plan, x.store, y.store, intent);
    SoundGrows(plan, x, y);
  }

  lemma KeepsRecord(plan: Plan, x: State, y: State, key: Key, job: JobId)
    requires Sound(plan, x) && PublishesRecord(x, y, key, job)
    ensures Sound(plan, y)
  {
    hide Good, PendingOk, Authorized, FollowupOk, ReceiptOk, EvidenceOk;
    GoodParts(plan, x.store);
    hide IntentsOk, RecordsOk, EvidencesOk;
    SoundGrows(plan, x, y);
  }

  lemma KeepsRejection(plan: Plan, x: State, y: State, key: Key)
    requires Sound(plan, x) && PublishesRejection(x, y, key)
    ensures Sound(plan, y)
  {
    hide PendingOk, IntentsOk, FollowupsOk, EvidencesOk;
    GoodParts(plan, x.store);
    if key in x.store.receipts { ReceiptIsSettled(plan, x.store, key); }
    hide Good, RecordsOk, ReceiptsOk;
    SoundGrows(plan, x, y);
  }

  lemma ReceiptIsSettled(plan: Plan, st: Store, key: Key)
    requires Good(plan, st) && key in st.receipts
    ensures key in st.records || key in st.rejections
  {
    hide IntentsOk, RecordsOk, FollowupsOk, EvidencesOk, Structural, InOrder, Placed, Hopeless;
    assert st.receipts[key].key == key && ReceiptOk(plan, st, st.receipts[key]);
    assert Settled(st, key.stage, key.attempt);
  }

  lemma KeepsFollowup(plan: Plan, x: State, y: State, f: Followup)
    requires Sound(plan, x) && PublishesFollowup(x, y, f) && Timely(plan, f)
    ensures Sound(plan, y)
  {
    hide Good, ReboundOk, Authorized, DraftOk, ScanOk, InquiryOk, ReceiptOk, RecordOk, RejectionOk, EvidenceOk, GatheringOk, Timely;
    assert ReboundOk(plan, x.store, f);
    hide PendingOk;
    GoodParts(plan, x.store);
    hide IntentsOk, RecordsOk, EvidencesOk;
    FollowupGrows(plan, x.store, y.store, f);
    SoundGrows(plan, x, y);
  }

  lemma KeepsEvidence(plan: Plan, x: State, y: State, key: Key, t: TaskId, raw: Raw)
    requires Sound(plan, x) && WritesEvidence(plan, x, y, key, t, raw)
    ensures Sound(plan, y)
  {
    hide Good, PendingOk, Retryable, Conclusive, Successful, EvidenceOk, Authorized, FollowupOk, ReceiptOk, RecordOk, RejectionOk;
    GoodParts(plan, x.store);
    hide IntentsOk, RecordsOk, EvidencesOk;
    EvidenceJustified(plan, x, y, key, t, raw);
    SoundGrows(plan, x, y);
  }

  lemma EvidenceJustified(plan: Plan, x: State, y: State, key: Key, t: TaskId, raw: Raw)
    requires WritesEvidence(plan, x, y, key, t, raw)
    ensures EvidenceOk(plan, y.store, TaskKey(key, t))
  {
    hide Conclusive, Successful, Retryable;
    assert Key(key.stage, key.attempt) == key;
  }

  lemma KeepsPublishedReceipt(plan: Plan, x: State, y: State, r: Receipt)
    requires Sound(plan, x) && PublishesReceipt(x, y, r)
    ensures Sound(plan, y)
  {
    hide Good, Authorized, DraftOk, ScanOk, InquiryOk, GatheringOk, ReboundOk, Structural, InOrder, Placed, Hopeless;
    GoodParts(plan, x.store);
    hide IntentsOk, RecordsOk, EvidencesOk;
    ReceiptGrows(plan, x.store, y.store, r);
    SoundGrows(plan, x, y);
  }

  /** Every step of every coordinator keeps the invariant and only adds documents. */
  lemma SoundNext(plan: Plan, x: State, y: State, step: Step)
    requires ValidPlan(plan) && OrdersAgree(plan) && Sound(plan, x) && Next(plan, x, y, step) && TimelyStep(plan, step)
    ensures Sound(plan, y) && Extends(x.store, y.store)
  {
    hide ValidPlan, OrdersAgree, Sound, Reads, Timely;
    match step
    case Reading(read) => KeepsRead(plan, x, y, read);
    case PublishIntent(intent) => KeepsPublishedIntent(plan, x, y, intent);
    case PublishRecord(key, job) => KeepsRecord(plan, x, y, key, job);
    case PublishRejection(key) => KeepsRejection(plan, x, y, key);
    case PublishFollowup(f) => KeepsFollowup(plan, x, y, f);
    case WriteEvidence(key, t, raw) => KeepsEvidence(plan, x, y, key, t, raw);
    case PublishReceipt(receipt) => KeepsPublishedReceipt(plan, x, y, receipt);
  }

  lemma {:induction false} SoundRun(plan: Plan, states: seq<State>, steps: seq<Step>, n: nat)
    requires ValidPlan(plan) && OrdersAgree(plan) && IsTimelyRun(plan, states, steps) && n < |states|
    ensures Sound(plan, states[n])
  {
    if n == 0 {
      assert Sound(plan, Init);
    } else {
      hide ValidPlan, OrdersAgree, Sound, Next, TimelyStep;
      SoundRun(plan, states, steps, n - 1);
      SoundNext(plan, states[n - 1], states[n], steps[n - 1]);
    }
  }

  lemma ExtendsOnward(a: Store, b: Store, c: Store)
    requires Extends(a, b) && Extends(b, c)
    ensures Extends(a, c)
  {
  }

  lemma StepAt(plan: Plan, states: seq<State>, steps: seq<Step>, i: nat)
    requires ValidPlan(plan) && IsTimelyRun(plan, states, steps) && i + 1 < |states|
    ensures |states| == |steps| + 1 && Next(plan, states[i], states[i + 1], steps[i]) && TimelyStep(plan, steps[i])
  {
    hide Next, TimelyStep;
  }

  lemma {:induction false} RunExtends(plan: Plan, states: seq<State>, steps: seq<Step>, m: nat, n: nat)
    requires ValidPlan(plan) && OrdersAgree(plan) && IsTimelyRun(plan, states, steps) && m <= n < |states|
    ensures Extends(states[m].store, states[n].store)
    decreases n
  {
    hide ValidPlan, OrdersAgree, Sound, Next, TimelyStep, Extends, IsTimelyRun;
    ExtendsItself(states[m].store);
    if m < n {
      StepAt(plan, states, steps, n - 1);
      RunExtends(plan, states, steps, m, n - 1);
      SoundRun(plan, states, steps, n - 1);
      SoundNext(plan, states[n - 1], states[n], steps[n - 1]);
      ExtendsOnward(states[m].store, states[n - 1].store, states[n].store);
    }
  }

  lemma ExtendsItself(st: Store)
    ensures Extends(st, st)
  {
  }

  // -------------------------------------------------------------- theorems

  /** The strict readers return exactly what is stored for one attempt: record, receipt, contract and follow-up. */
  ghost predicate Accepts(plan: Plan, st: Store, s: StageId, a: nat)
    requires ValidPlan(plan) && s in plan && a >= 1
  {
    && RecordsUpTo(plan, st, s, a) == Some(Records(st, s, a))
    && ReadReceipt(plan, st, s, a) == Some(if Key(s, a) in st.receipts then Some(st.receipts[Key(s, a)]) else None)
    && (Key(s, a) in st.intents ==> CommittedContract(plan, st, s, a) == Some(
          Contract(st.intents[Key(s, a)].tasks, if Committed(plan, st, s, a) then Some(st.intents[Key(s, a)].deps) else None)))
    && (Key(s, a) in st.followups ==> FollowupDeps(plan, st, s, a) == Some(st.followups[Key(s, a)].deps))
  }

  /** The strict readers never refuse anything the engine wrote, in any reachable state. */
  lemma StrictReadersAcceptEverything(plan: Plan, states: seq<State>, steps: seq<Step>, n: nat, s: StageId, a: nat)
    requires ValidPlan(plan) && OrdersAgree(plan) && IsTimelyRun(plan, states, steps) && n < |states| && s in plan && a >= 1
    ensures Accepts(plan, states[n].store, s, a)
  {
    hide ValidPlan, OrdersAgree, IsTimelyRun, RecordsUpTo, ReadReceipt, CommittedContract, FollowupDeps, Good, PendingOk, Committed;
    SoundRun(plan, states, steps, n);
    var st := states[n].store;
    RecordsRead(plan, st, s, a);
    ReceiptRead(plan, st, s, a);
    if Key(s, a) in st.intents { ContractRead(plan, st, s, a); }
    if Key(s, a) in st.followups { FollowupRead(plan, st, s, a); }
  }

  /**
    Evidence stability: a record the strict reader returns in one state is returned unchanged,
    with the same tasks and dependency jobs, in every later state, whatever was published since.
  */
  lemma EvidenceStability(plan: Plan, states: seq<State>, steps: seq<Step>, m: nat, n: nat, s: StageId, r: Record)
    requires ValidPlan(plan) && OrdersAgree(plan) && IsTimelyRun(plan, states, steps) && m <= n < |states| && s in plan
    requires AllRecords(plan, states[m].store, s).Some? && r in AllRecords(plan, states[m].store, s).value
    ensures AllRecords(plan, states[n].store, s).Some? && r in AllRecords(plan, states[n].store, s).value
  {
    hide ValidPlan, OrdersAgree, IsTimelyRun, RecordsUpTo, Good, PendingOk, Extends;
    var st, st', bound := states[m].store, states[n].store, plan[s].bound;
    SoundRun(plan, states, steps, m);
    SoundRun(plan, states, steps, n);
    RunExtends(plan, states, steps, m, n);
    RecordsRead(plan, st, s, bound);
    RecordsRead(plan, st', s, bound);
    GoodParts(plan, st);
    hide IntentsOk, RecordsOk, EvidencesOk, Coherent;
    var i :| 0 <= i < |Records(st, s, bound)| && Records(st, s, bound)[i] == r;
    RecordsStored(st, s, bound, i);
    assert Recorded(st', s, r.key.attempt) && st'.records[r.key] == r by { RecordKept(st, st', r.key); }
    RecordsContain(st', s, bound, r.key.attempt);
  }

  lemma RecordKept(st: Store, st': Store, k: Key)
    requires Extends(st, st') && k in st.records
    ensures k in st'.records && st'.records[k] == st.records[k]
  {
  }

  /**
    Generation isolation: two accepted attempts of a stage with no owned follow-up generation
    starting between them carry the same dependency jobs.
  */
  lemma GenerationIsolation(plan: Plan, states: seq<State>, steps: seq<Step>, n: nat, s: StageId, a: nat, b: nat)
    requires ValidPlan(plan) && OrdersAgree(plan) && IsTimelyRun(plan, states, steps) && n < |states|
    requires 1 <= a < b && Recorded(states[n].store, s, a) && Recorded(states[n].store, s, b)
    requires SameGeneration(plan, states[n].store, s, a, b)
    ensures states[n].store.records[Key(s, a)].deps == states[n].store.records[Key(s, b)].deps
  {
    hide ValidPlan, OrdersAgree, IsTimelyRun, Good, PendingOk, SameGeneration, DepsOk;
    SoundRun(plan, states, steps, n);
    SameDeps(plan, states[n].store, s, b, a, a);
    RecordIntent(plan, states[n].store, s, a);
    RecordIntent(plan, states[n].store, s, b);
  }

  /**
    A task with successful evidence stays successful and is in no later accepted attempt of its
    generation, and a retry runs only tasks whose evidence in every earlier attempt is a failure.
  */
  lemma SuccessStays(plan: Plan, states: seq<State>, steps: seq<Step>, m: nat, n: nat, s: StageId, k: nat, b: nat, t: TaskId)
    requires ValidPlan(plan) && OrdersAgree(plan) && IsTimelyRun(plan, states, steps) && m <= n < |states| && 1 <= k < b
    requires Ran(states[m].store, s, k, t) && TaskKey(Key(s, k), t) in states[m].store.evidence
    requires states[m].store.evidence[TaskKey(Key(s, k), t)].successful && SameGeneration(plan, states[n].store, s, k, b)
    ensures TaskKey(Key(s, k), t) in states[n].store.evidence && states[n].store.evidence[TaskKey(Key(s, k), t)].successful
    ensures !Ran(states[n].store, s, b, t)
  {
    hide ValidPlan, OrdersAgree, IsTimelyRun, Good, PendingOk, SameGeneration;
    SoundRun(plan, states, steps, n);
    RunExtends(plan, states, steps, m, n);
    SuccessIsFinal(plan, states[n].store, s, k, b, t);
  }

  /**
    Frozen verdicts are authentic: in every reachable state the stored booleans of every piece of
    task evidence are the ones recomputed from its raw observation and the signed policy, and a
    reconciliation that has that attempt on its list judges the task a success, now and ever after.
  */
  lemma FrozenVerdicts(plan: Plan, states: seq<State>, steps: seq<Step>, n: nat, k: TaskKey)
    requires ValidPlan(plan) && OrdersAgree(plan) && IsTimelyRun(plan, states, steps) && n < |states| && k in states[n].store.evidence
    ensures k.key.stage in plan && Authentic(plan[k.key.stage], states[n].store.evidence[k])
    ensures forall q, i: nat | q in states[n].inquiries && q.stage == k.key.stage && i < |q.records| && q.records[i].key == k.key
              && states[n].store.evidence[k].successful ::
              TaskVerdict(plan[k.key.stage], states[n].store, q.records, k.task) == Some(Success)
  {
    hide ValidPlan, OrdersAgree, IsTimelyRun, Authorized, DraftOk, ScanOk, InquiryOk, ReceiptOk, GatheringOk, ReboundOk, TaskVerdict, IntentsOk, RecordsOk, FollowupsOk, ReceiptsOk;
    SoundRun(plan, states, steps, n);
    var st := states[n].store;
    assert EvidenceOk(plan, st, k);
    assert Key(k.key.stage, k.key.attempt) == k.key && TaskKey(k.key, k.task) == k;
    forall q, i: nat | q in states[n].inquiries && q.stage == k.key.stage && i < |q.records| && q.records[i].key == k.key && st.evidence[k].successful
      ensures TaskVerdict(plan[k.key.stage], st, q.records, k.task) == Some(Success)
    {
      InquiryListed(plan, st, q);
      SuccessIsFound(plan, st, q.stage, q.records, i, k.task);
    }
  }

  lemma InquiryListed(plan: Plan, st: Store, q: Inquiry)
    requires InquiryOk(plan, st, q)
    ensures Listed(st, q.stage, q.records)
  {
    hide Gapless, Retried, Full, VerdictsOk, RejectedRun;
    var o: nat :| Sufficient(plan, st, q.stage, q.records, o) && Full(plan, st, q.stage, o);
  }

  // ------------------------------------------------------- retry paths

  lemma NewestUnique(st: Store, s: StageId, j: nat, k: nat, e: nat, t: TaskId)
    requires Newest(st, s, j, e, t) && Newest(st, s, k, e, t)
    ensures j == k
  {
  }

  /** Two justified receipts for one path agree on which tasks are unsuccessful. */
  lemma SameSuccesses(plan: Plan, st: Store, p: Receipt, q: Receipt, t: TaskId)
    requires ReceiptOk(plan, st, p) && ReceiptOk(plan, st, q) && p.key == q.key && t in plan[p.key.stage].tasks
    ensures t in p.successful <==> t in q.successful
    ensures t in p.retry && t in q.failed ==> !Hopelessly(st, q, t)
  {
    hide Newest, InOrder, Hopeless;
    var j: nat :| Placed(st, p, j, t);
    var k: nat :| Placed(st, q, k, t);
    NewestUnique(st, p.key.stage, j, k, p.key.attempt, t);
    forall l: nat | Placed(st, q, l, t) ensures l == k { NewestUnique(st, p.key.stage, l, k, p.key.attempt, t); }
  }

  /** The task's newest verdict is final. */
  ghost predicate Hopelessly(st: Store, r: Receipt, t: TaskId) {
    exists k: nat :: Placed(st, r, k, t) && !st.evidence[TaskKey(Key(r.key.stage, k), t)].retryable
  }

  /** A retry receipt is the only receipt that can ever be derived for its path. */
  lemma RetryIsUnique(plan: Plan, st: Store, p: Receipt, q: Receipt)
    requires ReceiptOk(plan, st, p) && ReceiptOk(plan, st, q) && p.key == q.key && p.decision == Retry
    ensures p == q
  {
    hide Placed, Hopeless, InOrder, Hopelessly;
    var stage := plan[p.key.stage];
    forall t | t in stage.tasks
      ensures (t in p.successful <==> t in q.successful) && (t in p.retry && t in q.failed ==> !Hopelessly(st, q, t))
    {
      SameSuccesses(plan, st, p, q, t);
    }
    Categories(stage, p);
    Categories(stage, q);
    assert p.retry[0] in p.retry;
    assert q.failed == [] by { NothingFailed(plan, st, p, q); }
    SameOrder(stage, p.successful, q.successful);
    SameOrder(stage, p.retry, q.retry);
  }

  /** A failure would need a final verdict, and the retry receipt has none. */
  lemma NothingFailed(plan: Plan, st: Store, p: Receipt, q: Receipt)
    requires ReceiptOk(plan, st, p) && ReceiptOk(plan, st, q) && p.key == q.key && p.decision == Retry
    ensures q.failed == []
  {
    hide Placed, Hopeless, InOrder, Hopelessly;
    if q.failed != [] {
      HopelessTask(st, q);
      var t :| t in q.failed && Hopelessly(st, q, t);
      Categories(plan[p.key.stage], p);
      Categories(plan[p.key.stage], q);
      SameSuccesses(plan, st, p, q, t);
    }
  }

  lemma HopelessTask(st: Store, r: Receipt)
    ensures Hopeless(st, r) ==> exists t :: t in r.failed && Hopelessly(st, r, t)
  {
    if Hopeless(st, r) {
      var t, k: nat :| t in r.failed && Placed(st, r, k, t) && !st.evidence[TaskKey(Key(r.key.stage, k), t)].retryable;
      assert Hopelessly(st, r, t);
    }
  }

  lemma Categories(stage: Stage, r: Receipt)
    requires Structural(stage, r)
    ensures forall t | t in r.successful :: t !in r.retry && t !in r.failed
    ensures forall t | t in r.successful || t in r.retry || t in r.failed :: t in stage.tasks
  {
    var all := r.successful + r.retry + r.failed;
    assert all == r.successful + (r.retry + r.failed);
    DistinctParts(r.successful, r.retry + r.failed);
    forall t | t in r.successful || t in r.retry || t in r.failed ensures t in stage.tasks { assert t in all; }
  }

  lemma DistinctParts(a: seq<TaskId>, b: seq<TaskId>)
    requires Distinct(a + b)
    ensures forall t | t in a :: t !in b
  {
    forall i, j | 0 <= i < |a| && 0 <= j < |b| ensures a[i] != b[j] {
      assert (a + b)[i] == a[i] && (a + b)[|a| + j] == b[j];
    }
  }

  lemma SameOrder(stage: Stage, a: seq<TaskId>, b: seq<TaskId>)
    requires InOrder(stage, a) && InOrder(stage, b) && (forall t | t in stage.tasks :: t in a <==> t in b)
    requires forall t | t in a || t in b :: t in stage.tasks
    ensures a == b
  {
    assert forall t :: t in Members(a) <==> t in Members(b);
    assert Members(a) == Members(b);
  }

  /**
    A terminal failure never lands on the path of a retry receipt: once a retry receipt is
    published or even only derived for an attempt, every receipt derived for that attempt,
    then or later, is that same receipt.
  */
  lemma RetryPathIsNeverOverwritten(plan: Plan, states: seq<State>, steps: seq<Step>, m: nat, n: nat, p: Receipt, q: Receipt)
    requires ValidPlan(plan) && OrdersAgree(plan) && IsTimelyRun(plan, states, steps) && m <= n < |states|
    requires p in states[m].receipts && p.decision == Retry && q in states[n].receipts && p.key == q.key
    ensures p == q
  {
    hide ValidPlan, OrdersAgree, IsTimelyRun, Good, ReceiptOk, Authorized, DraftOk, ScanOk, InquiryOk, GatheringOk, ReboundOk, Extends;
    SoundRun(plan, states, steps, m);
    SoundRun(plan, states, steps, n);
    RunExtends(plan, states, steps, m, n);
    GoodParts(plan, states[n].store);
    hide IntentsOk, RecordsOk, EvidencesOk, Coherent;
    ReceiptGrows(plan, states[m].store, states[n].store, p);
    RetryIsUnique(plan, states[n].store, p, q);
  }
}
