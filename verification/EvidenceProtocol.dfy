/**
  The evidence protocol as a transition system over the shared store.

  One step is one strict read (the records of one stage, one receipt, one follow-up and the owner
  of its attempt, the evidence of one task, one rejection) or one publication. A derivation, a reconciliation
  and a follow-up therefore read the store at several moments, between which any number of
  other coordinators may publish, and publish in a later step still. That an attempt gets
  at most one of record and rejection, and every record a job of its own, is what the
  submission protocol guarantees and is taken over here as the guard of those steps.
*/
module EvidenceProtocol {
  import opened Options
  import opened EvidenceStore
  import opened EvidenceReader
  import opened EvidenceEngine

  /** `_dependency_jobs` on its way: the latest job of each of the first prerequisites. */
  datatype Gathering = Gathering(stage: StageId, jobs: seq<JobId>)

  /** How far one `derive_attempt_authorization` has come. */
  datatype Draft =
    | Opened(key: Key, current: seq<JobId>)                            // dependency jobs resolved
    | Unreceipted(key: Key, current: seq<JobId>)                       // no receipt for the attempt before
    | Tasked(key: Key, current: seq<JobId>, tasks: seq<TaskId>)        // task set chosen
    | Scanning(key: Key, current: seq<JobId>, tasks: seq<TaskId>,      // records read; follow-ups above `next` passed
               latest: Option<Record>, next: nat)

  /** Records a reconciliation has read; the follow-ups above `next` do not own their attempt. */
  datatype Snapshot = Snapshot(stage: StageId, records: seq<Record>, next: nat)

  /** A reconciliation of one generation: its verdicts so far and the end of the rejection chain. */
  datatype Inquiry = Inquiry(stage: StageId, records: seq<Record>, verdicts: Verdicts, last: nat)

  datatype State = State(
    store: Store, gathered: set<Gathering>, drafts: set<Draft>, intents: set<Intent>, followups: set<Followup>,
    snapshots: set<Snapshot>, inquiries: set<Inquiry>, receipts: set<Receipt>)

  const Empty := Store(map[], map[], map[], map[], map[], map[])
  const Init := State(Empty, {}, {}, {}, {}, {}, {}, {})

  // ---------------------------------------------------------- derivations

  /** One more prerequisite is resolved to its latest accepted job. */
  predicate Gathers(plan: Plan, st: Store, g: Gathering, h: Gathering)
    requires ValidPlan(plan)
  {
    && g.stage in plan && |g.jobs| < |plan[g.stage].dependsOn|
    && var d := plan[g.stage].dependsOn[|g.jobs|];
    && d in plan && LatestRecord(plan, st, d).Some?
    && h == g.(jobs := g.jobs + [LatestRecord(plan, st, d).value.job])
  }

  /** A gathering starts empty; it goes on from any that is under way. */
  predicate UnderWay(x: State, g: Gathering) { g.jobs == [] || g in x.gathered }

  /** All prerequisites have been resolved, each at its own moment. */
  predicate Gathered(plan: Plan, x: State, s: StageId, jobs: seq<JobId>) {
    s in plan && |jobs| == |plan[s].dependsOn| && UnderWay(x, Gathering(s, jobs))
  }

  predicate Opens(plan: Plan, x: State, d: Draft) {
    && d.Opened? && Gathered(plan, x, d.key.stage, d.current) && 1 <= d.key.attempt <= plan[d.key.stage].bound
  }

  /** The attempt is a dependency follow-up's by its own authorization file. */
  predicate Claimed(plan: Plan, st: Store, key: Key)
    requires key.stage in plan
  {
    plan[key.stage].dependsOn != [] && key in st.followups
  }

  /** One more read of a derivation. */
  predicate Moves(plan: Plan, st: Store, d: Draft, e: Draft)
    requires ValidPlan(plan)
  {
    var s, a := d.key.stage, d.key.attempt;
    && s in plan && e.key == d.key && e.current == d.current
    && match d
       case Opened(_, _) =>
         && a > 1 && !Claimed(plan, st, d.key)
         && var read := ReadReceipt(plan, st, s, a - 1);
         && read.Some?
         && if read.value.None? then e.Unreceipted?
            else e.Tasked? && read.value.value.decision == Retry && Chosen(plan[s], read.value.value.retry, e.tasks)
       case Unreceipted(_, _) =>
         && a > 1 && e.Tasked? && Key(s, a - 1) in st.rejections && st.rejections[Key(s, a - 1)].key == Key(s, a - 1)
         && Chosen(plan[s], st.rejections[Key(s, a - 1)].tasks, e.tasks)
       case Tasked(_, _, tasks) =>
         && a > 1 && plan[s].dependsOn != [] && e.Scanning? && e.tasks == tasks && e.next == a - 1
         && var records := RecordsThrough(plan, st, s, a - 1);
         && records.Some?
         && e.latest == if records.value == [] then None else Some(records.value[|records.value| - 1])
       case Scanning(_, _, tasks, latest, next) =>
         && next > 1 && e == d.(next := next - 1)
         && (Key(s, next) in st.followups ==> Owns(plan, st, s, next) == Some(false))
  }

  /** The task set in array order, as the intent will write it. */
  predicate Chosen(stage: Stage, from: seq<TaskId>, tasks: seq<TaskId>) {
    Selectable(stage, from) && tasks == Select(stage, from)
  }

  /** The last read of a derivation gives its intent. */
  predicate Ends(plan: Plan, st: Store, d: Draft, intent: Intent)
    requires ValidPlan(plan)
  {
    var s, a := d.key.stage, d.key.attempt;
    && s in plan && intent.key == d.key
    && match d
       case Opened(_, current) =>
         && (a > 1 ==> Claimed(plan, st, d.key) && FollowupDeps(plan, st, s, a) == Some(current))
         && intent == Intent(d.key, plan[s].tasks, current)
       case Unreceipted(_, _) => false
       case Tasked(_, _, tasks) => plan[s].dependsOn == [] && intent == Intent(d.key, tasks, [])
       case Scanning(_, current, tasks, latest, next) =>
         && intent.tasks == tasks
         && if next > 1 then
              && Key(s, next) in st.followups && Owns(plan, st, s, next) == Some(true) && FollowupDeps(plan, st, s, next).Some?
              && intent.deps == if latest.None? || next > latest.value.key.attempt then st.followups[Key(s, next)].deps
                                else latest.value.deps
            else intent.deps == if latest.Some? then latest.value.deps else current
  }

  // ------------------------------------------------------- reconciliations

  predicate Takes(plan: Plan, st: Store, n: Snapshot)
    requires ValidPlan(plan)
  {
    n.stage in plan && AllRecords(plan, st, n.stage) == Some(n.records) && n.next == plan[n.stage].bound
  }

  /** The scan for the owning follow-up passes one attempt. */
  predicate Passes(plan: Plan, st: Store, n: Snapshot, m: Snapshot)
    requires ValidPlan(plan)
  {
    && n.stage in plan && n.next > 1 && m == n.(next := n.next - 1)
    && (Key(n.stage, n.next) in st.followups ==>
          FollowupDeps(plan, st, n.stage, n.next).Some? && Owns(plan, st, n.stage, n.next) == Some(false))
  }

  /** The scan ends, at an owning follow-up or below all of them. */
  predicate Settles(plan: Plan, st: Store, n: Snapshot, q: Inquiry)
    requires ValidPlan(plan)
  {
    && n.stage in plan
    && (n.next > 1 ==> Key(n.stage, n.next) in st.followups && FollowupDeps(plan, st, n.stage, n.next).Some?
                       && Owns(plan, st, n.stage, n.next) == Some(true))
    && var kept := FromAttempt(n.records, if n.next > 1 then n.next else 0);
    && kept != []
    && q == Inquiry(n.stage, kept, map[], kept[|kept| - 1].key.attempt)
  }

  /** One task is judged, before the rejection chain is followed. */
  predicate Judges(plan: Plan, st: Store, q: Inquiry, r: Inquiry, t: TaskId) {
    && q.stage in plan && t in plan[q.stage].tasks && q.records != [] && q.last == q.records[|q.records| - 1].key.attempt
    && var v := TaskVerdict(plan[q.stage], st, q.records, t);
    && v.Some? && r == q.(verdicts := q.verdicts[t := v.value])
  }

  /** The chain goes on over one authenticated rejection of the retry set. */
  predicate Advances(plan: Plan, st: Store, q: Inquiry, r: Inquiry)
    requires ValidPlan(plan)
  {
    && q.stage in plan && Judged(plan[q.stage], q.verdicts) && q.last < plan[q.stage].bound
    && var key, expected := Key(q.stage, q.last + 1), Expected(plan[q.stage], q.verdicts);
    && expected != [] && key in st.rejections && st.rejections[key].key == key && st.rejections[key].tasks == expected
    && var contract := CommittedContract(plan, st, q.stage, q.last + 1);
    && contract.Some? && contract.value.tasks == expected
    && r == q.(last := q.last + 1)
  }

  /** The chain ends here and the verdicts decide. */
  predicate Decides(plan: Plan, st: Store, q: Inquiry, files: Files, r: Receipt) {
    && q.stage in plan
    && (Expected(plan[q.stage], q.verdicts) == [] || q.last >= plan[q.stage].bound || Key(q.stage, q.last + 1) !in st.rejections)
    && Decide(plan[q.stage], q.stage, q.verdicts, q.last, files) == Some(r)
  }

  // ----------------------------------------------------------- publications

  predicate PublishesIntent(x: State, y: State, intent: Intent) {
    && intent in x.intents && intent.key !in x.store.intents
    && y == x.(store := x.store.(intents := x.store.intents[intent.key := intent]))
  }

  predicate PublishesRecord(x: State, y: State, key: Key, job: JobId) {
    && key in x.store.intents && key !in x.store.records && key !in x.store.rejections
    && (forall k | k in x.store.records :: x.store.records[k].job != job)
    && var intent := x.store.intents[key];
    && y == x.(store := x.store.(records := x.store.records[key := Record(key, job, intent.tasks, intent.deps)]))
  }

  predicate PublishesRejection(x: State, y: State, key: Key) {
    && key in x.store.intents && key !in x.store.records && key !in x.store.rejections
    && y == x.(store := x.store.(rejections := x.store.rejections[key := Rejection(key, x.store.intents[key].tasks)]))
  }

  /**
    `_ensure_reconciler_followups` rebinds a stage behind a retry: the retry's record, the stage's own
    records and the prerequisite jobs were each read at some moment before. Since then the attempt may
    have been taken or passed, and newer upstream attempts accepted.
  */
  predicate Rebinds(plan: Plan, x: State, f: Followup, retried: Key) {
    && Gathered(plan, x, f.key.stage, f.deps) && f.key.attempt <= plan[f.key.stage].bound
    && (exists k: nat | 1 <= k < f.key.attempt :: Key(f.key.stage, k) in x.store.records)
    && f.triggerStage in plan[f.key.stage].dependsOn && retried.stage == f.triggerStage && retried.attempt > 1
    && retried in x.store.records && x.store.records[retried].job == f.triggerJob
  }

  predicate PublishesFollowup(x: State, y: State, f: Followup) {
    && f in x.followups && f.key !in x.store.followups
    && y == x.(store := x.store.(followups := x.store.followups[f.key := f]))
  }

  predicate WritesEvidence(plan: Plan, x: State, y: State, key: Key, t: TaskId, raw: Raw) {
    && key.stage in plan && key in x.store.records && t in x.store.records[key].tasks && TaskKey(key, t) !in x.store.evidence
    && Conclusive(raw)
    && var e := Evidence(key, t, x.store.records[key].job, raw, Successful(raw),
                         !Successful(raw) && Retryable(plan[key.stage].policy, raw));
    && y == x.(store := x.store.(evidence := x.store.evidence[TaskKey(key, t) := e]))
  }

  predicate PublishesReceipt(x: State, y: State, receipt: Receipt) {
    && receipt in x.receipts && receipt.key !in x.store.receipts
    && y == x.(store := x.store.(receipts := x.store.receipts[receipt.key := receipt]))
  }

  // ------------------------------------------------------------------ steps

  /** A read of the store by one derivation, follow-up or reconciliation. */
  datatype Read =
    | GatherJob(gathering: Gathering, gathering': Gathering)
    | DeriveFollowup(followup: Followup, retried: Key)
    | OpenDraft(draft: Draft)
    | MoveDraft(draft: Draft, draft': Draft)
    | EndDraft(draft: Draft, intent: Intent)
    | TakeSnapshot(snapshot: Snapshot)
    | PassFollowup(snapshot: Snapshot, snapshot': Snapshot)
    | SettleGeneration(snapshot: Snapshot, inquiry: Inquiry)
    | JudgeTask(inquiry: Inquiry, inquiry': Inquiry, task: TaskId)
    | AdvanceChain(inquiry: Inquiry, inquiry': Inquiry)
    | DeriveReceipt(inquiry: Inquiry, files: Files, receipt: Receipt)

  predicate Reads(plan: Plan, x: State, y: State, read: Read)
    requires ValidPlan(plan)
  {
    match read
    case GatherJob(g, h) => UnderWay(x, g) && Gathers(plan, x.store, g, h) && y == x.(gathered := x.gathered + {h})
    case DeriveFollowup(f, retried) => Rebinds(plan, x, f, retried) && y == x.(followups := x.followups + {f})
    case OpenDraft(d) => Opens(plan, x, d) && y == x.(drafts := x.drafts + {d})
    case MoveDraft(d, e) => d in x.drafts && Moves(plan, x.store, d, e) && y == x.(drafts := x.drafts + {e})
    case EndDraft(d, i) => d in x.drafts && Ends(plan, x.store, d, i) && y == x.(intents := x.intents + {i})
    case TakeSnapshot(n) => Takes(plan, x.store, n) && y == x.(snapshots := x.snapshots + {n})
    case PassFollowup(n, m) => n in x.snapshots && Passes(plan, x.store, n, m) && y == x.(snapshots := x.snapshots + {m})
    case SettleGeneration(n, q) => n in x.snapshots && Settles(plan, x.store, n, q) && y == x.(inquiries := x.inquiries + {q})
    case JudgeTask(q, r, t) => q in x.inquiries && Judges(plan, x.store, q, r, t) && y == x.(inquiries := x.inquiries + {r})
    case AdvanceChain(q, r) => q in x.inquiries && Advances(plan, x.store, q, r) && y == x.(inquiries := x.inquiries + {r})
    case DeriveReceipt(q, files, r) => q in x.inquiries && Decides(plan, x.store, q, files, r) && y == x.(receipts := x.receipts + {r})
  }

  datatype Step =
    | Reading(read: Read)
    | PublishIntent(intent: Intent)
    | PublishRecord(key: Key, job: JobId)
    | PublishRejection(key: Key)
    | PublishFollowup(followup: Followup)
    | WriteEvidence(key: Key, task: TaskId, raw: Raw)
    | PublishReceipt(receipt: Receipt)

  predicate Next(plan: Plan, x: State, y: State, step: Step)
    requires ValidPlan(plan)
  {
    match step
    case Reading(read) => Reads(plan, x, y, read)
    case PublishIntent(intent) => PublishesIntent(x, y, intent)
    case PublishRecord(key, job) => PublishesRecord(x, y, key, job)
    case PublishRejection(key) => PublishesRejection(x, y, key)
    case PublishFollowup(f) => PublishesFollowup(x, y, f)
    case WriteEvidence(key, t, raw) => WritesEvidence(plan, x, y, key, t, raw)
    case PublishReceipt(receipt) => PublishesReceipt(x, y, receipt)
  }

  ghost predicate IsRun(plan: Plan, states: seq<State>, steps: seq<Step>)
    requires ValidPlan(plan)
  {
    && |states| == |steps| + 1 && states[0] == Init
    && forall i | 0 <= i < |steps| :: Next(plan, states[i], states[i + 1], steps[i])
  }
  predicate TimelyStep(plan: Plan, step: Step) { step.PublishFollowup? ==> Timely(plan, step.followup) }

  /** A run in which no follow-up is published behind the back of a newer upstream acceptance. */
  ghost predicate IsTimelyRun(plan: Plan, states: seq<State>, steps: seq<Step>)
    requires ValidPlan(plan)
  {
    IsRun(plan, states, steps) && forall i | 0 <= i < |steps| :: TimelyStep(plan, steps[i])
  }
}
