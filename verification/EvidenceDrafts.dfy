/**
  A derivation reads the store several times. Whatever is published in between, what it has
  read so far stays good enough for its last read to give an authorization the invariant admits.
*/
module EvidenceDrafts {
  import opened Options
  import opened EvidenceStore
  import opened EvidenceReader
  import opened EvidenceEngine
  import opened EvidenceProtocol
  import opened EvidenceInvariant
  import opened EvidenceAuthentication
  import opened EvidenceDerivation

  /** The attempt before has left these tasks, in this order, to an ordinary retry. */
  ghost predicate TasksOk(plan: Plan, st: Store, s: StageId, a: nat, tasks: seq<TaskId>) {
    && s in plan && a >= 2 && Selectable(plan[s], tasks) && Select(plan[s], tasks) == tasks
    && Settled(st, s, a - 1) && LeftOver(st, s, a) == Some(tasks) && OnlyMissing(plan, st, s, a, tasks)
  }

  predicate SameTuple(st: Store, s: StageId, c: nat, a: nat) {
    Key(s, c) in st.intents && Key(s, a) in st.intents && st.intents[Key(s, c)].deps == st.intents[Key(s, a)].deps
  }

  ghost predicate SameTuples(st: Store, s: StageId, m: nat, b: nat) {
    forall c: nat | m <= c <= b :: SameTuple(st, s, c, b)
  }

  /**
    Why the scan for an owning follow-up may trust a reading of the records whose latest is `latest`:
    at some pivot at or above it every attempt up to the rejected one has the same dependency jobs, and
    a pivot above the latest record is a committed follow-up that the scan has not yet reached.
  */
  ghost predicate Pivot(plan: Plan, st: Store, s: StageId, a: nat, latest: nat, next: nat, m: nat)
    requires a >= 1
  {
    && latest <= m < a
    && (forall c: nat | m < c < a :: Rejected(st, s, c))
    && (m == 0 ==> Unused(st, s, a))
    && (m != 0 ==> SameTuples(st, s, m, a - 1))
    && (m > latest ==> Committed(plan, st, s, m) && m <= next)
  }

  function Attempt(latest: Option<Record>): nat { if latest.Some? then latest.value.key.attempt else 0 }

  ghost predicate ScanFacts(plan: Plan, st: Store, s: StageId, a: nat, latest: Option<Record>, next: nat)
    requires a >= 1
  {
    && (latest.Some? ==>
          && 1 <= latest.value.key.attempt < a && latest.value.key.stage == s
          && latest.value.key in st.records && st.records[latest.value.key] == latest.value)
    && (Recorded(st, s, a - 1) ==> Attempt(latest) == a - 1)
    && (Rejected(st, s, a - 1) ==> exists m: nat :: Pivot(plan, st, s, a, Attempt(latest), next, m))
  }

  ghost predicate DraftOk(plan: Plan, st: Store, d: Draft) {
    var s, a := d.key.stage, d.key.attempt;
    && s in plan && 1 <= a <= plan[s].bound && DepsOk(plan, st, s, d.current)
    && (d.Tasked? || d.Scanning? ==> TasksOk(plan, st, s, a, d.tasks))
    && (d.Scanning? ==> d.next < a && ScanFacts(plan, st, s, a, d.latest, d.next))
  }

  // ----------------------------------------------------------------- growth

  lemma TasksGrow(plan: Plan, st: Store, st': Store, s: StageId, a: nat, tasks: seq<TaskId>)
    requires IntentsOk(plan, st) && RecordsOk(st) && Extends(st, st') && Coherent(st') && TasksOk(plan, st, s, a, tasks)
    ensures TasksOk(plan, st', s, a, tasks)
  {
    hide IntentsOk, RecordsOk, Coherent, OnlyMissing, LeftOver, Selectable, Select;
    SettledGrows(st, st', s, a - 1);
    LeftOverGrows(st, st', s, a);
    OnlyMissingGrows(plan, st, st', s, a, tasks);
  }

  lemma PivotGrows(plan: Plan, st: Store, st': Store, s: StageId, a: nat, latest: nat, next: nat, m: nat)
    requires a >= 1 && Extends(st, st') && Pivot(plan, st, s, a, latest, next, m)
    ensures Pivot(plan, st', s, a, latest, next, m)
  {
    forall c: nat | m < c < a ensures Rejected(st', s, c) { assert Rejected(st, s, c); }
    if m == 0 { forall k: nat | 1 <= k < a ensures Rejected(st', s, k) { assert Rejected(st, s, k); } }
    if m != 0 { TuplesGrow(st, st', s, m, a - 1); }
    if m > latest { CommittedStays(plan, st, st', s, m); }
  }

  lemma TuplesGrow(st: Store, st': Store, s: StageId, m: nat, b: nat)
    requires Extends(st, st') && SameTuples(st, s, m, b)
    ensures SameTuples(st', s, m, b)
  {
    forall c: nat | m <= c <= b ensures SameTuple(st', s, c, b) { assert SameTuple(st, s, c, b); }
  }

  lemma CommittedStays(plan: Plan, st: Store, st': Store, s: StageId, m: nat)
    requires Extends(st, st') && Committed(plan, st, s, m)
    ensures Committed(plan, st', s, m)
  {
  }

  lemma ScanFactsGrow(plan: Plan, st: Store, st': Store, s: StageId, a: nat, latest: Option<Record>, next: nat)
    requires a >= 1 && Extends(st, st') && Coherent(st') && Settled(st, s, a - 1) && ScanFacts(plan, st, s, a, latest, next)
    ensures ScanFacts(plan, st', s, a, latest, next)
  {
    hide Pivot;
    SettledGrows(st, st', s, a - 1);
    if Rejected(st, s, a - 1) {
      var m: nat :| Pivot(plan, st, s, a, Attempt(latest), next, m);
      PivotGrows(plan, st, st', s, a, Attempt(latest), next, m);
    }
  }

  /** What a draft has read survives every publication. */
  lemma DraftGrows(plan: Plan, st: Store, st': Store, d: Draft)
    requires IntentsOk(plan, st) && RecordsOk(st) && Extends(st, st') && Coherent(st') && DraftOk(plan, st, d)
    ensures DraftOk(plan, st', d)
  {
    var s, a := d.key.stage, d.key.attempt;
    hide IntentsOk, RecordsOk, Coherent, ScanFacts, Extends, DepsOk;
    DepsGrow(plan, st, st', s, d.current);
    if d.Tasked? || d.Scanning? {
      TasksGrow(plan, st, st', s, a, d.tasks);
      if d.Scanning? { ScanFactsGrow(plan, st, st', s, a, d.latest, d.next); }
    }
  }

  // ------------------------------------------------------------------ moves

  /** Going down from a rejected attempt to the first that was recorded or that a follow-up committed. */
  lemma {:induction false} FindPivot(plan: Plan, st: Store, s: StageId, a: nat, m: nat) returns (p: nat)
    requires Good(plan, st) && m < a && Rejected(st, s, a - 1) && SameGeneration(plan, st, s, m, a - 1)
    requires (forall c: nat | m < c < a :: Rejected(st, s, c)) && (m >= 1 ==> Settled(st, s, m))
    ensures p <= m && SameGeneration(plan, st, s, p, a - 1) && (forall c: nat | p < c < a :: Rejected(st, s, c))
    ensures p == 0 || Recorded(st, s, p) || Committed(plan, st, s, p)
    decreases m
  {
    hide Good, Committed, OnlyMissing, Linked, LeftOver, DepsOk;
    if m == 0 || Recorded(st, s, m) || Committed(plan, st, s, m) {
      p := m;
    } else {
      if m >= 2 { OrdinaryOf(plan, st, s, m); }
      p := FindPivot(plan, st, s, a, m - 1);
    }
  }

  lemma PivotExists(plan: Plan, st: Store, s: StageId, a: nat, latest: nat) returns (p: nat)
    requires Good(plan, st) && a >= 2 && Rejected(st, s, a - 1) && latest < a
    requires (latest >= 1 ==> Recorded(st, s, latest)) && (forall k: nat | latest < k < a :: !Recorded(st, s, k))
    ensures Pivot(plan, st, s, a, latest, a - 1, p)
  {
    hide Good, DepsOk;
    RecordIntent(plan, st, s, a - 1);
    p := FindPivot(plan, st, s, a, a - 1);
    if p < latest { RecordIntent(plan, st, s, latest); }
    if p != 0 {
      var j := if Recorded(st, s, p) then p else 0;
      if !Recorded(st, s, p) { j := SomeRecord(plan, st, s, p); }
      PivotTuples(plan, st, s, a - 1, p, j);
    }
  }

  lemma PivotTuples(plan: Plan, st: Store, s: StageId, b: nat, p: nat, j: nat)
    requires Good(plan, st) && 1 <= j <= p <= b && Recorded(st, s, j) && Settled(st, s, b) && SameGeneration(plan, st, s, p, b)
    ensures SameTuples(st, s, p, b)
  {
    hide Good, DepsOk;
    forall c: nat | p <= c <= b ensures SameTuple(st, s, c, b) {
      assert SameGeneration(plan, st, s, c, b);
      SameDeps(plan, st, s, b, c, j);
    }
  }

  lemma RecordsGiveFacts(plan: Plan, st: Store, s: StageId, a: nat)
    requires ValidPlan(plan) && Good(plan, st) && s in plan && a >= 2 && Settled(st, s, a - 1)
    ensures RecordsThrough(plan, st, s, a - 1).Some?
    ensures var all := RecordsThrough(plan, st, s, a - 1).value;
      ScanFacts(plan, st, s, a, if all == [] then None else Some(all[|all| - 1]), a - 1)
  {
    hide Good, ValidPlan, RecordsUpTo, Pivot, Records, DepsOk;
    RecordIntent(plan, st, s, a - 1);
    RecordsRead(plan, st, s, a - 1);
    StoredDeps(plan, st, s, a);
    var all := Records(st, s, a - 1);
    var latest := if all == [] then 0 else all[|all| - 1].key.attempt;
    if latest != 0 { RecordIntent(plan, st, s, latest); }
    var last := if all == [] then None else Some(all[|all| - 1]);
    assert Attempt(last) == latest;
    if Rejected(st, s, a - 1) {
      var p := PivotExists(plan, st, s, a, latest);
      assert Pivot(plan, st, s, a, Attempt(last), a - 1, p);
    }
  }

  lemma ScanMoves(plan: Plan, st: Store, s: StageId, a: nat, latest: Option<Record>, next: nat)
    requires ValidPlan(plan) && Good(plan, st) && s in plan && 1 < next < a && ScanFacts(plan, st, s, a, latest, next)
    requires Key(s, next) in st.followups ==> Owns(plan, st, s, next) == Some(false)
    ensures ScanFacts(plan, st, s, a, latest, next - 1)
  {
    hide Good, ValidPlan, Owns;
    if Key(s, next) in st.followups { OwnsRead(plan, st, s, next); }
    if Rejected(st, s, a - 1) {
      var m: nat :| Pivot(plan, st, s, a, Attempt(latest), next, m);
      assert Pivot(plan, st, s, a, Attempt(latest), next - 1, m);
    }
  }

  /** The receipt or rejection before an attempt leaves it its tasks. */
  lemma ReceiptTasks(plan: Plan, st: Store, s: StageId, a: nat)
    requires ValidPlan(plan) && OrdersAgree(plan) && Good(plan, st) && s in plan && a >= 2
    requires Key(s, a - 1) in st.receipts && st.receipts[Key(s, a - 1)].decision == Retry && Selectable(plan[s], st.receipts[Key(s, a - 1)].retry)
    ensures TasksOk(plan, st, s, a, st.receipts[Key(s, a - 1)].retry)
  {
    hide Good, Structural, OnlyMissing, Placed, Hopeless, Ordinary, DepsOk, Selectable;
    ReceiptOf(plan, st, Key(s, a - 1));
    ReceiptLeavesMissing(plan, st, s, a);
  }

  lemma RejectionTasks(plan: Plan, st: Store, s: StageId, a: nat)
    requires Good(plan, st) && s in plan && a >= 2 && Rejected(st, s, a - 1)
    ensures TasksOk(plan, st, s, a, st.rejections[Key(s, a - 1)].tasks)
  {
    hide Good, OnlyMissing, Ordinary, DepsOk, IntentsOk, RecordsOk, EvidencesOk;
    RejectionLeavesMissing(plan, st, s, a);
    RecordIntent(plan, st, s, a - 1);
    IntentOf(plan, st, Key(s, a - 1));
    GoodParts(plan, st);
  }

  /** Every read of a derivation keeps its draft justified. */
  lemma MovesOk(plan: Plan, st: Store, d: Draft, e: Draft)
    requires ValidPlan(plan) && OrdersAgree(plan) && Good(plan, st) && DraftOk(plan, st, d) && Moves(plan, st, d, e)
    ensures DraftOk(plan, st, e)
  {
    hide Good, ValidPlan, OrdersAgree, ReadReceipt, RecordsThrough, Owns, DepsOk, TasksOk, ScanFacts, Selectable, Select;
    var s, a := d.key.stage, d.key.attempt;
    match d
    case Opened(_, _) =>
      ReceiptRead(plan, st, s, a - 1);
      if e.Tasked? {
        ReceiptTasks(plan, st, s, a);
        TasksChosen(plan, st, s, a, st.receipts[Key(s, a - 1)].retry);
      }
    case Unreceipted(_, _) =>
      RejectionTasks(plan, st, s, a);
      TasksChosen(plan, st, s, a, st.rejections[Key(s, a - 1)].tasks);
    case Tasked(_, _, tasks) =>
      TasksChosen(plan, st, s, a, tasks);
      RecordsGiveFacts(plan, st, s, a);
    case Scanning(_, _, tasks, latest, next) => ScanMoves(plan, st, s, a, latest, next);
  }

  lemma TasksChosen(plan: Plan, st: Store, s: StageId, a: nat, tasks: seq<TaskId>)
    requires TasksOk(plan, st, s, a, tasks)
    ensures s in plan && Select(plan[s], tasks) == tasks && a >= 2 && Settled(st, s, a - 1)
  {
  }

  // ------------------------------------------------------------------- ends

  /** Whatever the scan ends with, the retry stays in its dependency generation. */
  lemma ScanLinks(plan: Plan, st: Store, s: StageId, a: nat, latest: Option<Record>, next: nat, deps: seq<JobId>, current: seq<JobId>)
    requires ValidPlan(plan) && Good(plan, st) && s in plan && 1 < a && next < a && Settled(st, s, a - 1) && ScanFacts(plan, st, s, a, latest, next)
    requires if next > 1 then
               && Key(s, next) in st.followups && Owns(plan, st, s, next) == Some(true)
               && deps == (if latest.None? || next > latest.value.key.attempt then st.followups[Key(s, next)].deps else latest.value.deps)
             else deps == if latest.Some? then latest.value.deps else current
    ensures Linked(st, s, a, deps)
  {
    hide Good, ValidPlan, Owns, DepsOk;
    RecordIntent(plan, st, s, a - 1);
    if latest.Some? { RecordIntent(plan, st, s, latest.value.key.attempt); }
    if next > 1 { OwnsRead(plan, st, s, next); }
    if Rejected(st, s, a - 1) {
      var m: nat :| Pivot(plan, st, s, a, Attempt(latest), next, m);
      PivotLinks(plan, st, s, a, latest, next, m, deps);
    }
  }

  lemma PivotLinks(plan: Plan, st: Store, s: StageId, a: nat, latest: Option<Record>, next: nat, m: nat, deps: seq<JobId>)
    requires Good(plan, st) && s in plan && 1 < a && next < a && Rejected(st, s, a - 1) && ScanFacts(plan, st, s, a, latest, next)
    requires Pivot(plan, st, s, a, Attempt(latest), next, m)
    requires if next > 1 then
               && Key(s, next) in st.followups && (Key(s, next) in st.intents ==> Committed(plan, st, s, next))
               && deps == (if latest.None? || next > latest.value.key.attempt then st.followups[Key(s, next)].deps else latest.value.deps)
             else latest.Some? ==> deps == latest.value.deps
    ensures Unused(st, s, a) || (Key(s, a - 1) in st.intents && st.intents[Key(s, a - 1)].deps == deps)
  {
    hide Good, DepsOk;
    if m != 0 {
      assert SameTuple(st, s, a - 1, a - 1);
      if next > 1 && next > Attempt(latest) {
        RecordIntentIf(plan, st, s, next, m, a);
        assert SameTuple(st, s, next, a - 1);
      } else {
        RecordIntent(plan, st, s, Attempt(latest));
        assert SameTuple(st, s, Attempt(latest), a - 1);
      }
    }
  }

  lemma RecordIntentIf(plan: Plan, st: Store, s: StageId, next: nat, m: nat, a: nat)
    requires Good(plan, st) && m <= next < a && (forall c: nat | m < c < a :: Rejected(st, s, c)) && (next == m ==> Committed(plan, st, s, m))
    ensures Key(s, next) in st.intents
  {
    hide Good, DepsOk;
    if next > m {
      assert Rejected(st, s, next);
      RecordIntent(plan, st, s, next);
    }
  }

  lemma ScanDepsOk(plan: Plan, st: Store, s: StageId, a: nat, latest: Option<Record>, next: nat, deps: seq<JobId>, current: seq<JobId>)
    requires Good(plan, st) && s in plan && a >= 1 && ScanFacts(plan, st, s, a, latest, next) && DepsOk(plan, st, s, current)
    requires (Key(s, next) in st.followups && deps == st.followups[Key(s, next)].deps) || (latest.Some? && deps == latest.value.deps) || deps == current
    ensures DepsOk(plan, st, s, deps)
  {
    hide Good, DepsOk, Pivot;
    if Key(s, next) in st.followups { FollowupDepsOk(plan, st, s, next); }
    if latest.Some? { RecordIntent(plan, st, s, latest.value.key.attempt); }
  }

  /** The intent at the end of a derivation is one the invariant admits. */
  lemma EndsOk(plan: Plan, st: Store, d: Draft, i: Intent)
    requires ValidPlan(plan) && Good(plan, st) && DraftOk(plan, st, d) && Ends(plan, st, d, i)
    ensures Authorized(plan, st, i)
  {
    hide Good, ValidPlan, FollowupDeps, Owns, DepsOk, ScanFacts, Selectable, Select, OnlyMissing, Linked, LeftOver;
    var s, a := d.key.stage, d.key.attempt;
    match d
    case Opened(_, current) =>
      WholeStage(plan, s);
      if a > 1 { FollowupRead(plan, st, s, a); }
    case Tasked(_, current, tasks) =>
      NoDeps(plan, st, s, []);
      NoDepsLinked(plan, st, s, a);
    case Scanning(_, current, tasks, latest, next) =>
      ScanLinks(plan, st, s, a, latest, next, i.deps, current);
      ScanDepsOk(plan, st, s, a, latest, next, i.deps, current);
  }

  lemma NoDepsLinked(plan: Plan, st: Store, s: StageId, a: nat)
    requires Good(plan, st) && s in plan && plan[s].dependsOn == [] && a >= 2 && Settled(st, s, a - 1)
    ensures Linked(st, s, a, [])
  {
    hide Good;
    RecordIntent(plan, st, s, a - 1);
    NoDeps(plan, st, s, st.intents[Key(s, a - 1)].deps);
  }

  // ------------------------------------------------------------ dependency jobs

  /** Each job gathered so far was accepted for its own prerequisite. */
  ghost predicate GatheringOk(plan: Plan, st: Store, g: Gathering) {
    && g.stage in plan && |g.jobs| <= |plan[g.stage].dependsOn|
    && forall i | 0 <= i < |g.jobs| :: HasJob(st, plan[g.stage].dependsOn[i], g.jobs[i], 0)
  }

  lemma GatheringGrows(plan: Plan, st: Store, st': Store, g: Gathering)
    requires Extends(st, st') && GatheringOk(plan, st, g)
    ensures GatheringOk(plan, st', g)
  {
    hide HasJob, Extends;
    forall i | 0 <= i < |g.jobs| ensures HasJob(st', plan[g.stage].dependsOn[i], g.jobs[i], 0) {
      HasJobGrows(st, st', plan[g.stage].dependsOn[i], g.jobs[i], 0);
    }
  }

  lemma GathersOk(plan: Plan, st: Store, g: Gathering, h: Gathering)
    requires ValidPlan(plan) && Good(plan, st) && Gathers(plan, st, g, h) && (g.jobs == [] || GatheringOk(plan, st, g))
    ensures GatheringOk(plan, st, h)
  {
    hide Good, ValidPlan, LatestRecord;
    var d := plan[g.stage].dependsOn[|g.jobs|];
    LatestStored(plan, st, d);
    assert HasJob(st, d, LatestRecord(plan, st, d).value.job, 0) by { assert Recorded(st, d, LatestRecord(plan, st, d).value.key.attempt); }
  }

  lemma GatheredOk(plan: Plan, x: State, s: StageId, jobs: seq<JobId>)
    requires Gathered(plan, x, s, jobs) && (forall g | g in x.gathered :: GatheringOk(plan, x.store, g))
    ensures s in plan && DepsOk(plan, x.store, s, jobs)
  {
    hide HasJob;
    if jobs != [] { assert GatheringOk(plan, x.store, Gathering(s, jobs)); }
  }

  lemma OpensOk(plan: Plan, x: State, d: Draft)
    requires Opens(plan, x, d) && (forall g | g in x.gathered :: GatheringOk(plan, x.store, g))
    ensures DraftOk(plan, x.store, d)
  {
    hide DepsOk, GatheringOk, Gathered;
    GatheredOk(plan, x, d.key.stage, d.current);
  }

  /** Jobs of different prerequisites differ, at whatever moments they were read. */
  lemma RebindsOk(plan: Plan, x: State, f: Followup, retried: Key)
    requires ValidPlan(plan) && Good(plan, x.store) && Rebinds(plan, x, f, retried)
    requires forall g | g in x.gathered :: GatheringOk(plan, x.store, g)
    ensures ReboundOk(plan, x.store, f)
  {
    hide Good, GatheringOk, Gathered;
    var s, st := f.key.stage, x.store;
    GatheredOk(plan, x, s, f.deps);
    JobsDiffer(plan, st, s, f.deps);
    hide ValidPlan, DepsOk;
    var k: nat :| 1 <= k < f.key.attempt && Key(s, k) in st.records;
    assert Recorded(st, s, k);
    assert HasJob(st, f.triggerStage, f.triggerJob, 1) by { assert Key(f.triggerStage, retried.attempt) == retried && Recorded(st, f.triggerStage, retried.attempt); }
  }
}
