/**
  A reconciliation reads the store several times: its records, the follow-ups that might own a
  newer generation, each task's evidence and the chain of rejections. Whatever is published in
  between, every receipt it derives is one the invariant admits: each task sits in exactly one
  category, the one its newest durable verdict calls for.
*/
module EvidenceReconciliation {
  import opened Options
  import opened EvidenceStore
  import opened EvidenceReader
  import opened EvidenceEngine
  import opened EvidenceProtocol
  import opened EvidenceInvariant
  import opened EvidenceAuthentication
  import opened EvidenceDerivation
  import opened EvidenceDrafts

  predicate Holds(records: seq<Record>, k: Key) { exists i | 0 <= i < |records| :: records[i].key == k }

  /** Stored records of one stage in attempt order. */
  ghost predicate Listed(st: Store, s: StageId, records: seq<Record>) {
    && (forall i | 0 <= i < |records| :: records[i].key.stage == s && records[i].key in st.records && st.records[records[i].key] == records[i])
    && (forall i, j | 0 <= i < j < |records| :: records[i].key.attempt < records[j].key.attempt)
  }

  /** A task that was run again had failed before. */
  ghost predicate Retried(st: Store, s: StageId, records: seq<Record>) {
    forall i, j, t | 0 <= i < j < |records| && t in records[i].tasks && t in records[j].tasks ::
      Unsuccessful(st, s, records[i].key.attempt, t)
  }

  function First(o: nat): nat { if o == 0 then 1 else o }

  /** Attempt `o` starts with every task: it is the first, or its intent names them all. */
  predicate Full(plan: Plan, st: Store, s: StageId, o: nat) {
    s in plan && (o <= 1 || (Key(s, o) in st.intents && st.intents[Key(s, o)].tasks == plan[s].tasks))
  }

  predicate RunsAll(plan: Plan, s: StageId, records: seq<Record>, i: nat) {
    s in plan && i < |records| && records[i].tasks == plan[s].tasks
  }

  /** No accepted attempt since `o` is missing from the list up to its last. */
  ghost predicate Gapless(st: Store, s: StageId, records: seq<Record>, o: nat)
    requires records != []
  {
    && (forall i | 0 <= i < |records| :: First(o) <= records[i].key.attempt)
    && (forall m: nat | First(o) <= m <= records[|records| - 1].key.attempt :: Rejected(st, s, m) || Holds(records, Key(s, m)))
  }

  /** A list that is good to reconcile, if it is not empty and attempt `o` starts a generation. */
  ghost predicate Sufficient(plan: Plan, st: Store, s: StageId, records: seq<Record>, o: nat) {
    && s in plan && Listed(st, s, records)
    && (records != [] ==>
          && records[|records| - 1].key.attempt <= plan[s].bound
          && Gapless(st, s, records, o) && Retried(st, s, records)
          && (Full(plan, st, s, o) ==> exists i: nat :: RunsAll(plan, s, records, i)))
  }

  /** Wherever the scan for an owning follow-up may still end, the records from there are complete. */
  ghost predicate ScanOk(plan: Plan, st: Store, n: Snapshot) {
    forall o: nat | o <= n.next && SameGeneration(plan, st, n.stage, o, n.next) ::
      Sufficient(plan, st, n.stage, FromAttempt(n.records, o), o)
  }

  // --------------------------------------------------------------- growth

  lemma ListedGrows(st: Store, st': Store, s: StageId, records: seq<Record>)
    requires Extends(st, st') && Listed(st, s, records)
    ensures Listed(st', s, records)
  {
  }

  lemma GaplessGrows(st: Store, st': Store, s: StageId, records: seq<Record>, o: nat)
    requires records != [] && Extends(st, st') && Gapless(st, s, records, o)
    ensures Gapless(st', s, records, o)
  {
    hide Holds;
    forall m: nat | First(o) <= m <= records[|records| - 1].key.attempt ensures Rejected(st', s, m) || Holds(records, Key(s, m)) {
      assert Rejected(st, s, m) ==> Rejected(st', s, m);
    }
  }

  lemma RetriedGrows(st: Store, st': Store, s: StageId, records: seq<Record>)
    requires Extends(st, st') && Retried(st, s, records)
    ensures Retried(st', s, records)
  {
    forall i, j, t | 0 <= i < j < |records| && t in records[i].tasks && t in records[j].tasks
      ensures Unsuccessful(st', s, records[i].key.attempt, t)
    {
      assert Unsuccessful(st, s, records[i].key.attempt, t);
    }
  }

  /** The attempt a complete list starts with is settled, so its intent is fixed. */
  lemma StartSettled(plan: Plan, st: Store, s: StageId, records: seq<Record>, o: nat)
    requires records != [] && Listed(st, s, records) && Gapless(st, s, records, o)
    ensures Settled(st, s, First(o))
  {
    ListEnd(st, s, records, 0);
    if !Rejected(st, s, First(o)) {
      var i :| 0 <= i < |records| && records[i].key == Key(s, First(o));
      assert Recorded(st, s, First(o));
    }
  }

  lemma FullShrinks(plan: Plan, st: Store, st': Store, s: StageId, o: nat)
    requires RecordsOk(st) && Extends(st, st') && Settled(st, s, First(o)) && Full(plan, st', s, o)
    ensures Full(plan, st, s, o)
  {
    assert Recorded(st, s, First(o)) ==> RecordOk(st, Key(s, First(o)));
    assert Rejected(st, s, First(o)) ==> RejectionOk(st, Key(s, First(o)));
  }

  lemma SufficientGrows(plan: Plan, st: Store, st': Store, s: StageId, records: seq<Record>, o: nat)
    requires RecordsOk(st) && Extends(st, st') && Sufficient(plan, st, s, records, o)
    ensures Sufficient(plan, st', s, records, o)
  {
    hide RecordsOk, Listed, Gapless, Retried, RunsAll, Full, Extends;
    ListedGrows(st, st', s, records);
    if records != [] {
      GaplessGrows(st, st', s, records, o);
      RetriedGrows(st, st', s, records);
      StartSettled(plan, st, s, records, o);
      if Full(plan, st', s, o) { FullShrinks(plan, st, st', s, o); }
    }
  }

  lemma ScanGrows(plan: Plan, st: Store, st': Store, n: Snapshot)
    requires RecordsOk(st) && Extends(st, st') && ScanOk(plan, st, n)
    ensures ScanOk(plan, st', n)
  {
    hide RecordsOk, Extends, Sufficient, SameGeneration, FromAttempt;
    forall o: nat | o <= n.next && SameGeneration(plan, st', n.stage, o, n.next)
      ensures Sufficient(plan, st', n.stage, FromAttempt(n.records, o), o)
    {
      CommittedGrows(plan, st, st', n.stage, o, n.next);
      SufficientGrows(plan, st, st', n.stage, FromAttempt(n.records, o), o);
    }
  }

  // ------------------------------------------------------- a fresh snapshot

  lemma {:induction false} FromAttemptHolds(records: seq<Record>, start: nat, k: Key)
    ensures Holds(FromAttempt(records, start), k) <==> Holds(records, k) && k.attempt >= start
  {
    if records != [] {
      var init, last := records[..|records| - 1], records[|records| - 1];
      var kept := FromAttempt(init, start);
      FromAttemptHolds(init, start, k);
      HoldsAppend(init, last, k);
      HoldsAppend(kept, last, k);
      assert records == init + [last];
      assert last.key.attempt < start ==> FromAttempt(records, start) == kept;
    }
  }

  lemma HoldsAppend(records: seq<Record>, last: Record, k: Key)
    ensures Holds(records + [last], k) <==> Holds(records, k) || last.key == k
  {
    var all := records + [last];
    if Holds(records, k) {
      var i :| 0 <= i < |records| && records[i].key == k;
      assert all[i].key == k;
    }
    assert all[|records|] == last;
    if Holds(all, k) {
      var i :| 0 <= i < |all| && all[i].key == k;
      assert i < |records| ==> records[i].key == k;
    }
  }

  lemma {:induction false} FromAttemptListed(st: Store, s: StageId, records: seq<Record>, start: nat)
    requires Listed(st, s, records)
    ensures Listed(st, s, FromAttempt(records, start))
    ensures forall r | r in FromAttempt(records, start) :: r in records
  {
    if records != [] {
      var init, last := records[..|records| - 1], records[|records| - 1];
      FromAttemptListed(st, s, init, start);
      assert forall r | r in init :: r in records && r.key.attempt < last.key.attempt;
    }
  }

  lemma HeldAt(records: seq<Record>, i: nat)
    requires i < |records|
    ensures Holds(records, records[i].key)
  {
  }

  lemma Narrow(plan: Plan, st: Store, s: StageId, from: nat, to: nat, from': nat, to': nat)
    requires SameGeneration(plan, st, s, from, to) && from <= from' && to' <= to
    ensures SameGeneration(plan, st, s, from', to')
  {
  }

  /** The stored records are a list, and hold every recorded attempt of the stage. */
  lemma AllListed(plan: Plan, st: Store, s: StageId)
    requires Good(plan, st) && s in plan
    ensures Listed(st, s, Records(st, s, plan[s].bound))
    ensures forall m: nat | Recorded(st, s, m) :: Holds(Records(st, s, plan[s].bound), Key(s, m))
  {
    hide Good, Records, DepsOk;
    GoodParts(plan, st);
    hide IntentsOk, RecordsOk, EvidencesOk, Coherent;
    var all := Records(st, s, plan[s].bound);
    forall i | 0 <= i < |all| ensures all[i].key.stage == s && all[i].key in st.records && st.records[all[i].key] == all[i] {
      RecordsStored(st, s, plan[s].bound, i);
    }
    forall i, j | 0 <= i < j < |all| ensures all[i].key.attempt < all[j].key.attempt { RecordsAscend(st, s, plan[s].bound, i, j); }
    forall m: nat | Recorded(st, s, m) ensures Holds(all, Key(s, m)) {
      RecordIntent(plan, st, s, m);
      RecordsContain(st, s, plan[s].bound, m);
      var n :| 0 <= n < |all| && all[n] == st.records[Key(s, m)];
      assert all[n].key == Key(s, m);
    }
  }

  /** What one generation's records are good for, read off the store. */
  lemma FreshGapless(plan: Plan, st: Store, s: StageId, o: nat)
    requires Good(plan, st) && s in plan && SameGeneration(plan, st, s, o, plan[s].bound)
    requires FromAttempt(Records(st, s, plan[s].bound), o) != []
    ensures var kept := FromAttempt(Records(st, s, plan[s].bound), o);
      && Listed(st, s, kept) && Gapless(st, s, kept, o) && Recorded(st, s, kept[|kept| - 1].key.attempt)
      && kept[|kept| - 1].key.attempt <= plan[s].bound
  {
    hide Good, FromAttempt, SameGeneration, Holds, Records, DepsOk;
    AllListed(plan, st, s);
    var all := Records(st, s, plan[s].bound);
    var kept := FromAttempt(all, o);
    FromAttemptListed(st, s, all, o);
    var c := kept[|kept| - 1].key.attempt;
    assert Recorded(st, s, c);
    RecordIntent(plan, st, s, c);
    forall i | 0 <= i < |kept| ensures First(o) <= kept[i].key.attempt {
      HeldAt(kept, i);
      FromAttemptHolds(all, o, kept[i].key);
      assert Recorded(st, s, kept[i].key.attempt);
      RecordIntent(plan, st, s, kept[i].key.attempt);
    }
    forall m: nat | First(o) <= m <= c ensures Rejected(st, s, m) || Holds(kept, Key(s, m)) {
      Narrow(plan, st, s, o, plan[s].bound, m, c);
      Chain(plan, st, s, c, m);
      FromAttemptHolds(all, o, Key(s, m));
    }
  }

  /** Inside a generation a task is run again only after it failed. */
  lemma RetriedAfterFailure(plan: Plan, st: Store, s: StageId, k: nat, b: nat, t: TaskId)
    requires Good(plan, st) && 1 <= k < b && Ran(st, s, k, t) && Ran(st, s, b, t) && SameGeneration(plan, st, s, k, b)
    ensures Unsuccessful(st, s, k, t)
  {
    hide Good, Linked, LeftOver, DepsOk;
    OrdinaryOf(plan, st, s, b);
    RecordIntent(plan, st, s, b);
    assert SameGeneration(plan, st, s, k, b - 1);
  }

  lemma FreshRetried(plan: Plan, st: Store, s: StageId, records: seq<Record>, o: nat)
    requires Good(plan, st) && s in plan && SameGeneration(plan, st, s, o, plan[s].bound)
    requires records != [] && Listed(st, s, records) && Gapless(st, s, records, o) && records[|records| - 1].key.attempt <= plan[s].bound
    ensures Retried(st, s, records)
  {
    hide Good, SameGeneration, Unsuccessful, Holds;
    forall i, j, t | 0 <= i < j < |records| && t in records[i].tasks && t in records[j].tasks
      ensures Unsuccessful(st, s, records[i].key.attempt, t)
    {
      var k, b := records[i].key.attempt, records[j].key.attempt;
      ListEnd(st, s, records, j);
      Narrow(plan, st, s, o, plan[s].bound, k, b);
      assert Recorded(st, s, k) && Recorded(st, s, b);
      RetriedAfterFailure(plan, st, s, k, b, t);
    }
  }

  lemma FreshRunsAll(plan: Plan, st: Store, s: StageId, records: seq<Record>, o: nat)
    requires Good(plan, st) && s in plan && SameGeneration(plan, st, s, o, plan[s].bound) && Full(plan, st, s, o)
    requires records != [] && Listed(st, s, records) && Gapless(st, s, records, o) && records[|records| - 1].key.attempt <= plan[s].bound
    ensures exists i: nat :: RunsAll(plan, s, records, i)
  {
    hide Good, SameGeneration, DepsOk, Ordinary, Select, Selectable;
    var c := records[|records| - 1].key.attempt;
    assert Recorded(st, s, c);
    ListEnd(st, s, records, 0);
    StartSettled(plan, st, s, records, o);
    RecordIntent(plan, st, s, First(o));
    IntentOf(plan, st, Key(s, First(o)));
    Narrow(plan, st, s, o, plan[s].bound, First(o), c);
    var m := FirstRunsAll(plan, st, s, First(o), c);
    RecordIntent(plan, st, s, m);
    var i :| 0 <= i < |records| && records[i].key == Key(s, m);
    assert RunsAll(plan, s, records, i);
  }

  /** The strict reader's answer is complete wherever the scan may end. */
  lemma SnapshotTaken(plan: Plan, st: Store, n: Snapshot)
    requires ValidPlan(plan) && Good(plan, st) && Takes(plan, st, n)
    ensures ScanOk(plan, st, n)
  {
    hide Good, ValidPlan, RecordsUpTo, FromAttempt, SameGeneration, Gapless, Listed, Retried, Full, Records;
    var s := n.stage;
    RecordsRead(plan, st, s, plan[s].bound);
    forall o: nat | o <= n.next && SameGeneration(plan, st, s, o, n.next)
      ensures Sufficient(plan, st, s, FromAttempt(n.records, o), o)
    {
      FreshSufficient(plan, st, s, o);
    }
  }

  lemma FreshSufficient(plan: Plan, st: Store, s: StageId, o: nat)
    requires Good(plan, st) && s in plan && SameGeneration(plan, st, s, o, plan[s].bound)
    ensures Sufficient(plan, st, s, FromAttempt(Records(st, s, plan[s].bound), o), o)
  {
    hide Good, FromAttempt, SameGeneration, Gapless, Listed, Retried, Full, Records, RunsAll;
    var kept := FromAttempt(Records(st, s, plan[s].bound), o);
    AllListed(plan, st, s);
    FromAttemptListed(st, s, Records(st, s, plan[s].bound), o);
    if kept != [] {
      FreshGapless(plan, st, s, o);
      FreshRetried(plan, st, s, kept, o);
      if Full(plan, st, s, o) { FreshRunsAll(plan, st, s, kept, o); }
    }
  }

  /** Passing an attempt that no follow-up owns loses nothing. */
  lemma PassesOk(plan: Plan, st: Store, n: Snapshot, m: Snapshot)
    requires ValidPlan(plan) && Good(plan, st) && ScanOk(plan, st, n) && Passes(plan, st, n, m)
    ensures ScanOk(plan, st, m)
  {
    hide Good, ValidPlan, Sufficient, FromAttempt, Owns, FollowupDeps;
    if Key(n.stage, n.next) in st.followups { OwnsRead(plan, st, n.stage, n.next); }
    forall o: nat | o <= m.next && SameGeneration(plan, st, m.stage, o, m.next)
      ensures Sufficient(plan, st, m.stage, FromAttempt(m.records, o), o)
    {
      assert SameGeneration(plan, st, n.stage, o, n.next);
    }
  }

  /** The first accepted attempt of a generation runs every task of the stage. */
  lemma {:induction false} FirstRunsAll(plan: Plan, st: Store, s: StageId, k: nat, c: nat) returns (m: nat)
    requires Good(plan, st) && s in plan && 1 <= k <= c && Recorded(st, s, c) && SameGeneration(plan, st, s, k, c)
    requires Key(s, k) in st.intents && st.intents[Key(s, k)].tasks == plan[s].tasks
    ensures k <= m <= c && Recorded(st, s, m) && st.records[Key(s, m)].tasks == plan[s].tasks
    decreases c - k
  {
    hide Good, DepsOk, SameGeneration, Committed, Ordinary;
    Chain(plan, st, s, c, k);
    RecordIntent(plan, st, s, k);
    if Recorded(st, s, k) {
      m := k;
    } else {
      Narrow(plan, st, s, k, c, k + 1, c);
      Chain(plan, st, s, c, k + 1);
      RejectionRunsAll(plan, st, s, k, c);
      m := FirstRunsAll(plan, st, s, k + 1, c);
    }
  }

  /** A rejected full-task attempt leaves all its tasks to the next attempt of the generation. */
  lemma RejectionRunsAll(plan: Plan, st: Store, s: StageId, k: nat, c: nat)
    requires Good(plan, st) && s in plan && 1 <= k < c && Rejected(st, s, k) && Settled(st, s, k + 1) && SameGeneration(plan, st, s, k, c)
    requires Key(s, k) in st.intents && st.intents[Key(s, k)].tasks == plan[s].tasks
    ensures Key(s, k + 1) in st.intents && st.intents[Key(s, k + 1)].tasks == plan[s].tasks
  {
    hide Good, OnlyMissing, Linked, DepsOk, IntentsOk, RecordsOk, EvidencesOk;
    OrdinaryOf(plan, st, s, k + 1);
    RecordIntent(plan, st, s, k);
    GoodParts(plan, st);
  }

  lemma ListEnd(st: Store, s: StageId, records: seq<Record>, i: nat)
    requires Listed(st, s, records) && i < |records|
    ensures records[i].key.attempt <= records[|records| - 1].key.attempt
  {
  }

  /** A task that succeeded is in no later attempt of its generation. */
  lemma SuccessIsFinal(plan: Plan, st: Store, s: StageId, k: nat, b: nat, t: TaskId)
    requires Good(plan, st) && Ran(st, s, k, t) && TaskKey(Key(s, k), t) in st.evidence && st.evidence[TaskKey(Key(s, k), t)].successful
    requires 1 <= k < b && SameGeneration(plan, st, s, k, b)
    ensures !Ran(st, s, b, t)
  {
    hide Good, Linked, LeftOver, DepsOk;
    if Recorded(st, s, b) {
      OrdinaryOf(plan, st, s, b);
      RecordIntent(plan, st, s, b);
      assert SameGeneration(plan, st, s, k, b - 1);
      assert t in st.intents[Key(s, b)].tasks ==> Unsuccessful(st, s, k, t);
    }
  }

  // --------------------------------------------------------- the verdicts

  ghost predicate LastWith(records: seq<Record>, i: nat, t: TaskId) {
    i < |records| && t in records[i].tasks && forall j | i < j < |records| :: t !in records[j].tasks
  }

  predicate Seen(st: Store, records: seq<Record>, i: nat, t: TaskId)
  {
    i < |records| && TaskKey(records[i].key, t) in st.evidence
  }

  /** What a verdict says about the durable evidence, case by case. */
  lemma {:induction false} VerdictMeaning(stage: Stage, st: Store, records: seq<Record>, t: TaskId)
    ensures TaskVerdict(stage, st, records, t) == Some(Success) ==>
      exists i: nat :: Seen(st, records, i, t) && t in records[i].tasks && st.evidence[TaskKey(records[i].key, t)].successful
    ensures TaskVerdict(stage, st, records, t) == Some(RetryTask) ==>
      exists i: nat :: Seen(st, records, i, t) && LastWith(records, i, t)
        && !st.evidence[TaskKey(records[i].key, t)].successful && st.evidence[TaskKey(records[i].key, t)].retryable
    ensures TaskVerdict(stage, st, records, t) == Some(FailedTask) ==>
      || (forall j | 0 <= j < |records| :: t !in records[j].tasks)
      || exists i: nat :: Seen(st, records, i, t) && LastWith(records, i, t)
           && !st.evidence[TaskKey(records[i].key, t)].successful && !st.evidence[TaskKey(records[i].key, t)].retryable
  {
    if records != [] {
      var init, n := records[..|records| - 1], |records| - 1;
      VerdictMeaning(stage, st, init, t);
      var v := TaskVerdict(stage, st, init, t);
      if t in records[n].tasks && v != Some(Success) {
        assert Seen(st, records, n, t) <==> TaskKey(records[n].key, t) in st.evidence;
        assert LastWith(records, n, t);
      } else if v == Some(Success) {
        var i: nat :| Seen(st, init, i, t) && t in init[i].tasks && st.evidence[TaskKey(init[i].key, t)].successful;
        assert Seen(st, records, i, t) && records[i] == init[i];
      } else if v == Some(RetryTask) {
        var i: nat :| Seen(st, init, i, t) && LastWith(init, i, t)
          && !st.evidence[TaskKey(init[i].key, t)].successful && st.evidence[TaskKey(init[i].key, t)].retryable;
        assert Seen(st, records, i, t) && records[i] == init[i] && LastWith(records, i, t);
      } else if v == Some(FailedTask) && !(forall j | 0 <= j < |init| :: t !in init[j].tasks) {
        var i: nat :| Seen(st, init, i, t) && LastWith(init, i, t)
          && !st.evidence[TaskKey(init[i].key, t)].successful && !st.evidence[TaskKey(init[i].key, t)].retryable;
        assert Seen(st, records, i, t) && records[i] == init[i] && LastWith(records, i, t);
      }
    }
  }

  /** A listed attempt with successful evidence makes the verdict a success, wherever it stands in the list. */
  lemma {:induction false} SuccessIsFound(plan: Plan, st: Store, s: StageId, records: seq<Record>, i: nat, t: TaskId)
    requires s in plan && EvidencesOk(plan, st) && Listed(st, s, records)
    requires i < |records| && t in records[i].tasks && Seen(st, records, i, t) && st.evidence[TaskKey(records[i].key, t)].successful
    ensures TaskVerdict(plan[s], st, records, t) == Some(Success)
  {
    var init, n := records[..|records| - 1], |records| - 1;
    VerdictReadable(plan, st, s, init, t);
    if i < n {
      SuccessIsFound(plan, st, s, init, i, t);
    } else {
      assert EvidenceOk(plan, st, TaskKey(records[n].key, t));
    }
  }

  lemma {:induction false} VerdictReadable(plan: Plan, st: Store, s: StageId, records: seq<Record>, t: TaskId)
    requires s in plan && EvidencesOk(plan, st) && Listed(st, s, records)
    ensures TaskVerdict(plan[s], st, records, t).Some?
  {
    if records != [] {
      var init, last := records[..|records| - 1], records[|records| - 1];
      VerdictReadable(plan, st, s, init, t);
      assert TaskKey(last.key, t) in st.evidence ==> EvidenceOk(plan, st, TaskKey(last.key, t));
    }
  }

  /** The rejections after the last accepted attempt all name the expected tasks. */
  ghost predicate RejectedRun(st: Store, s: StageId, c: nat, e: nat, expected: seq<TaskId>) {
    c <= e && forall m: nat | c < m <= e :: Rejected(st, s, m) && st.rejections[Key(s, m)].tasks == expected
  }

  lemma {:induction false} LastRejectedRun(plan: Plan, st: Store, s: StageId, c: nat, expected: seq<TaskId>)
    requires ValidPlan(plan) && s in plan && c <= plan[s].bound && LastRejected(plan, st, s, c, expected).Some?
    ensures var e := LastRejected(plan, st, s, c, expected).value;
      RejectedRun(st, s, c, e, expected) && e <= plan[s].bound
    decreases plan[s].bound - c
  {
    hide ValidPlan, CommittedContract;
    if !(expected == [] || c >= plan[s].bound || Key(s, c + 1) !in st.rejections) {
      LastRejectedRun(plan, st, s, c + 1, expected);
      var e := LastRejected(plan, st, s, c, expected).value;
      forall m: nat | c < m <= e ensures Rejected(st, s, m) && st.rejections[Key(s, m)].tasks == expected {
        assert m == c + 1 || c + 1 < m;
      }
    }
  }

  /** What a collected verdict rests on. */
  ghost predicate Decisive(st: Store, records: seq<Record>, t: TaskId, v: Verdict, i: nat) {
    match v
    case Active => true
    case Success => Seen(st, records, i, t) && t in records[i].tasks && st.evidence[TaskKey(records[i].key, t)].successful
    case RetryTask =>
      && Seen(st, records, i, t) && LastWith(records, i, t)
      && !st.evidence[TaskKey(records[i].key, t)].successful && st.evidence[TaskKey(records[i].key, t)].retryable
    case FailedTask =>
      && Seen(st, records, i, t) && LastWith(records, i, t)
      && !st.evidence[TaskKey(records[i].key, t)].successful && !st.evidence[TaskKey(records[i].key, t)].retryable
  }

  ghost predicate VerdictsOk(st: Store, records: seq<Record>, verdicts: Verdicts) {
    forall t | t in verdicts :: exists i: nat :: Decisive(st, records, t, verdicts[t], i)
  }

  /** What one reconciliation has read stays good for its decision. */
  ghost predicate InquiryOk(plan: Plan, st: Store, q: Inquiry) {
    && q.stage in plan && q.records != []
    && (exists o: nat :: Sufficient(plan, st, q.stage, q.records, o) && Full(plan, st, q.stage, o))
    && VerdictsOk(st, q.records, q.verdicts)
    && q.last <= plan[q.stage].bound
    && RejectedRun(st, q.stage, q.records[|q.records| - 1].key.attempt, q.last, Expected(plan[q.stage], q.verdicts))
  }

  lemma InquiryGrows(plan: Plan, st: Store, st': Store, q: Inquiry)
    requires RecordsOk(st) && Extends(st, st') && InquiryOk(plan, st, q)
    ensures InquiryOk(plan, st', q)
  {
    hide RecordsOk, Sufficient, Full, Expected, VerdictsOk, RejectedRun, Extends;
    var o: nat :| Sufficient(plan, st, q.stage, q.records, o) && Full(plan, st, q.stage, o);
    SufficientGrows(plan, st, st', q.stage, q.records, o);
    FullGrows(plan, st, st', q.stage, o);
    VerdictsGrow(st, st', q.records, q.verdicts);
    RejectedRunGrows(st, st', q.stage, q.records[|q.records| - 1].key.attempt, q.last, Expected(plan[q.stage], q.verdicts));
  }

  lemma FullGrows(plan: Plan, st: Store, st': Store, s: StageId, o: nat)
    requires Extends(st, st') && Full(plan, st, s, o)
    ensures Full(plan, st', s, o)
  {
  }

  lemma VerdictsGrow(st: Store, st': Store, records: seq<Record>, verdicts: Verdicts)
    requires Extends(st, st') && VerdictsOk(st, records, verdicts)
    ensures VerdictsOk(st', records, verdicts)
  {
    forall t | t in verdicts ensures exists i: nat :: Decisive(st', records, t, verdicts[t], i) {
      var i: nat :| Decisive(st, records, t, verdicts[t], i);
      assert Decisive(st', records, t, verdicts[t], i);
    }
  }

  lemma RejectedRunGrows(st: Store, st': Store, s: StageId, c: nat, e: nat, expected: seq<TaskId>)
    requires Extends(st, st') && RejectedRun(st, s, c, e, expected)
    ensures RejectedRun(st', s, c, e, expected)
  {
    forall m: nat | c < m <= e ensures Rejected(st', s, m) && st'.rejections[Key(s, m)].tasks == expected { assert Rejected(st, s, m); }
  }

  /** Where the scan ends, a generation starts. */
  lemma SettlesOk(plan: Plan, st: Store, n: Snapshot, q: Inquiry)
    requires ValidPlan(plan) && Good(plan, st) && ScanOk(plan, st, n) && Settles(plan, st, n, q)
    ensures InquiryOk(plan, st, q)
  {
    hide Good, ValidPlan, FromAttempt, Owns, FollowupDeps, Sufficient, Listed, Gapless, DepsOk;
    var s, o := n.stage, if n.next > 1 then n.next else 0;
    assert SameGeneration(plan, st, s, o, n.next);
    assert Sufficient(plan, st, s, q.records, o);
    SufficientParts(plan, st, s, q.records, o);
    StartSettled(plan, st, s, q.records, o);
    RecordIntent(plan, st, s, First(o));
    if n.next > 1 { OwnsRead(plan, st, s, n.next); }
    assert Full(plan, st, s, o);
  }

  lemma SufficientParts(plan: Plan, st: Store, s: StageId, records: seq<Record>, o: nat)
    requires Sufficient(plan, st, s, records, o) && records != []
    ensures Listed(st, s, records) && Gapless(st, s, records, o) && Retried(st, s, records)
    ensures records[|records| - 1].key.attempt <= plan[s].bound
  {
  }

  lemma JudgesOk(plan: Plan, st: Store, q: Inquiry, r: Inquiry, t: TaskId)
    requires InquiryOk(plan, st, q) && Judges(plan, st, q, r, t)
    ensures InquiryOk(plan, st, r)
  {
    hide Sufficient, TaskVerdict, Sorted;
    var v := TaskVerdict(plan[q.stage], st, q.records, t).value;
    var o: nat :| Sufficient(plan, st, q.stage, q.records, o) && Full(plan, st, q.stage, o);
    var i := VerdictRests(plan, st, q.stage, q.records, o, t);
    forall u | u in r.verdicts ensures exists j: nat :: Decisive(st, r.records, u, r.verdicts[u], j) {
      if u == t { assert Decisive(st, r.records, t, v, i); }
    }
  }

  lemma VerdictRests(plan: Plan, st: Store, s: StageId, records: seq<Record>, o: nat, t: TaskId) returns (i: nat)
    requires Sufficient(plan, st, s, records, o) && Full(plan, st, s, o) && records != [] && t in plan[s].tasks
    requires TaskVerdict(plan[s], st, records, t).Some?
    ensures Decisive(st, records, t, TaskVerdict(plan[s], st, records, t).value, i)
  {
    var a: nat :| RunsAll(plan, s, records, a);
    hide Sufficient, TaskVerdict;
    VerdictMeaning(plan[s], st, records, t);
    match TaskVerdict(plan[s], st, records, t).value {
      case Active => i := 0;
      case Success => i :| Seen(st, records, i, t) && t in records[i].tasks && st.evidence[TaskKey(records[i].key, t)].successful;
      case RetryTask =>
        i :| Seen(st, records, i, t) && LastWith(records, i, t)
          && !st.evidence[TaskKey(records[i].key, t)].successful && st.evidence[TaskKey(records[i].key, t)].retryable;
      case FailedTask =>
        assert t in records[a].tasks;
        i :| Seen(st, records, i, t) && LastWith(records, i, t)
          && !st.evidence[TaskKey(records[i].key, t)].successful && !st.evidence[TaskKey(records[i].key, t)].retryable;
    }
  }

  lemma AdvancesOk(plan: Plan, st: Store, q: Inquiry, r: Inquiry)
    requires ValidPlan(plan) && InquiryOk(plan, st, q) && Advances(plan, st, q, r)
    ensures InquiryOk(plan, st, r)
  {
    hide Sufficient, Expected, CommittedContract, VerdictsOk;
    assert Rejected(st, q.stage, r.last);
  }

  // ---------------------------------------------------- the newest attempts

  /** The newest listed attempt of a task is its newest attempt in the store. */
  lemma LastIsNewest(plan: Plan, st: Store, s: StageId, records: seq<Record>, o: nat, e: nat, expected: seq<TaskId>, i: nat, t: TaskId)
    requires Good(plan, st) && records != [] && Listed(st, s, records) && Gapless(st, s, records, o)
    requires RejectedRun(st, s, records[|records| - 1].key.attempt, e, expected) && LastWith(records, i, t)
    ensures records[i].key == Key(s, records[i].key.attempt) && Newest(st, s, records[i].key.attempt, e, t)
  {
    hide Good, DepsOk;
    var k := records[i].key.attempt;
    assert Recorded(st, s, k) && Ran(st, s, k, t);
    ListEnd(st, s, records, i);
    forall m | k < m <= e ensures Settled(st, s, m) && !Ran(st, s, m, t) {
      if m <= records[|records| - 1].key.attempt && Holds(records, Key(s, m)) {
        var j :| 0 <= j < |records| && records[j].key == Key(s, m);
        assert i < j;
        assert t !in records[j].tasks;
      } else {
        assert Rejected(st, s, m);
        RecordIntent(plan, st, s, m);
      }
    }
  }

  /** A task that succeeded is in no later listed attempt. */
  lemma SuccessIsLast(st: Store, s: StageId, records: seq<Record>, i: nat, t: TaskId)
    requires Listed(st, s, records) && Retried(st, s, records)
    requires Seen(st, records, i, t) && t in records[i].tasks && st.evidence[TaskKey(records[i].key, t)].successful
    ensures LastWith(records, i, t)
  {
    forall j | i < j < |records| ensures t !in records[j].tasks {
      assert t in records[j].tasks ==> Unsuccessful(st, s, records[i].key.attempt, t);
      assert records[i].key == Key(s, records[i].key.attempt);
    }
  }

  /** The listed attempt whose evidence decided a task is the task's newest. */
  lemma DecisiveIsNewest(plan: Plan, st: Store, q: Inquiry, t: TaskId) returns (i: nat)
    requires Good(plan, st) && InquiryOk(plan, st, q) && t in q.verdicts && q.verdicts[t] != Active
    ensures Decisive(st, q.records, t, q.verdicts[t], i) && i < |q.records|
    ensures q.records[i].key == Key(q.stage, q.records[i].key.attempt) && Newest(st, q.stage, q.records[i].key.attempt, q.last, t)
  {
    hide Good, Newest, Expected, RejectedRun, Gapless, Listed, Retried, Full, Sufficient;
    var o: nat :| Sufficient(plan, st, q.stage, q.records, o) && Full(plan, st, q.stage, o);
    SufficientParts(plan, st, q.stage, q.records, o);
    i :| Decisive(st, q.records, t, q.verdicts[t], i);
    if q.verdicts[t] == Success { SuccessIsLast(st, q.stage, q.records, i, t); }
    LastIsNewest(plan, st, q.stage, q.records, o, q.last, Expected(plan[q.stage], q.verdicts), i, t);
  }

  // -------------------------------------------------------- the decision

  /** The categories of one reconciliation: every task is in exactly one of three. */
  ghost predicate Partition(stage: Stage, successful: set<TaskId>, retryable: set<TaskId>, failed: set<TaskId>) {
    && successful !! retryable && successful !! failed && retryable !! failed
    && (forall t | t in stage.tasks :: t in successful || t in retryable || t in failed)
  }

  lemma DecisionPartitions(stage: Stage, s: StageId, verdicts: Verdicts, last: nat, files: Files)
    requires Decide(stage, s, verdicts, last, files).Some?
    ensures Partition(stage, Category(stage, verdicts, Success), Category(stage, verdicts, RetryTask), Category(stage, verdicts, FailedTask))
  {
    hide Sorted;
    forall t | t in stage.tasks
      ensures t in Category(stage, verdicts, Success) + Category(stage, verdicts, RetryTask) + Category(stage, verdicts, FailedTask)
    {
      assert t !in Category(stage, verdicts, Active);
      match verdicts[t] { case Success => case Active => case RetryTask => case FailedTask => }
    }
  }

  lemma SortedMeans(plan: Plan, s: StageId, chosen: set<TaskId>)
    requires ValidPlan(plan) && s in plan
    ensures forall t :: t in Sorted(plan[s], chosen) <==> t in plan[s].tasks && t in chosen
    ensures Distinct(Sorted(plan[s], chosen)) && InOrder(plan[s], Sorted(plan[s], chosen))
  {
    KeepMembers(plan[s].byId, chosen);
    KeepDistinct(plan[s].byId, chosen);
    KeepAgain(plan[s].byId, chosen, Members(Sorted(plan[s], chosen)));
  }

  lemma DisjointConcat(a: seq<TaskId>, b: seq<TaskId>)
    requires Distinct(a) && Distinct(b) && (forall t | t in a :: t !in b)
    ensures Distinct(a + b)
  {
    forall i, j | 0 <= i < j < |a + b| ensures (a + b)[i] != (a + b)[j] {
      if i < |a| <= j { assert a[i] in a && b[j - |a|] in b; }
    }
  }

  lemma {:induction false} KeepNone(ids: seq<TaskId>)
    ensures Keep(ids, {}) == []
  {
    if ids != [] { KeepNone(ids[..|ids| - 1]); }
  }

  lemma NothingSorted(stage: Stage)
    ensures Sorted(stage, {}) == []
  {
    KeepNone(stage.byId);
  }

  /** A receipt that lists a partition of the tasks satisfies the intrinsic rules. */
  lemma PartitionIsStructural(plan: Plan, s: StageId, r: Receipt, successful: set<TaskId>, retryable: set<TaskId>, failed: set<TaskId>)
    requires ValidPlan(plan) && s in plan && Partition(plan[s], successful, retryable, failed)
    requires successful + retryable + failed <= Members(plan[s].tasks)
    requires r.successful == Sorted(plan[s], successful) && r.retry == Sorted(plan[s], retryable) && r.failed == Sorted(plan[s], failed)
    requires (r.decision == Retry) == (retryable != {}) && (r.decision == Failed) == (failed != {} || r.stageFailed)
    requires (retryable != {} ==> failed == {}) && (r.stageFailed ==> failed == {} && retryable == {})
    ensures Structural(plan[s], r) && InOrder(plan[s], r.successful) && InOrder(plan[s], r.retry)
  {
    hide ValidPlan, Sorted, Distinct, InOrder;
    SortedMeans(plan, s, successful);
    SortedMeans(plan, s, retryable);
    SortedMeans(plan, s, failed);
    NothingSorted(plan[s]);
    DisjointConcat(r.successful, r.retry);
    DisjointConcat(r.successful + r.retry, r.failed);
    if t :| t in retryable { assert t in successful + retryable + failed; assert t in r.retry; }
    if t :| t in failed { assert t in successful + retryable + failed; assert t in r.failed; }
    assert forall t | t in plan[s].tasks :: t in r.successful || t in r.retry || t in r.failed;
    assert forall t | t in r.successful + r.retry + r.failed :: t in plan[s].tasks;
  }

  /** The receipt of a decision lists each task in exactly one category. */
  lemma DecisionStructural(plan: Plan, s: StageId, verdicts: Verdicts, last: nat, files: Files)
    requires ValidPlan(plan) && s in plan && Decide(plan[s], s, verdicts, last, files).Some?
    ensures var r := Decide(plan[s], s, verdicts, last, files).value;
      Structural(plan[s], r) && InOrder(plan[s], r.successful) && InOrder(plan[s], r.retry)
  {
    hide ValidPlan, Sorted, InOrder, Category, Structural;
    var stage, r := plan[s], Decide(plan[s], s, verdicts, last, files).value;
    var successful, retryable, failed := Category(stage, verdicts, Success), Category(stage, verdicts, RetryTask), Category(stage, verdicts, FailedTask);
    DecisionPartitions(stage, s, verdicts, last, files);
    CategoryTasks(stage, verdicts);
    NothingSorted(stage);
    if r.decision == Retry {
      PartitionIsStructural(plan, s, r, successful, retryable, {});
    } else {
      assert failed == {} && retryable == {} ==> failed + retryable == {};
      PartitionIsStructural(plan, s, r, successful, {}, failed + retryable);
    }
  }

  lemma CategoryTasks(stage: Stage, verdicts: Verdicts)
    ensures forall v :: Category(stage, verdicts, v) <= Members(stage.tasks)
  {
  }

  /** Where a receipt lists a task is where its verdict puts it. */
  lemma DecisionLists(plan: Plan, s: StageId, verdicts: Verdicts, last: nat, files: Files, t: TaskId)
    requires ValidPlan(plan) && s in plan && Decide(plan[s], s, verdicts, last, files).Some? && t in plan[s].tasks
    ensures t in verdicts && verdicts[t] != Active
    ensures var r := Decide(plan[s], s, verdicts, last, files).value;
      && (t in r.successful ==> verdicts[t] == Success) && (t in r.retry ==> verdicts[t] == RetryTask)
      && (t in r.failed ==> verdicts[t] == RetryTask || verdicts[t] == FailedTask)
  {
    hide ValidPlan, Sorted;
    var stage := plan[s];
    assert t !in Category(stage, verdicts, Active);
    SortedMeans(plan, s, Category(stage, verdicts, Success));
    SortedMeans(plan, s, Category(stage, verdicts, RetryTask));
    SortedMeans(plan, s, Category(stage, verdicts, FailedTask) + Category(stage, verdicts, RetryTask));
  }

  /** Where a decision puts a task, the task's newest verdict is the one that calls for it. */
  lemma DecisionPlaces(plan: Plan, st: Store, q: Inquiry, files: Files, r: Receipt, t: TaskId) returns (k: nat)
    requires ValidPlan(plan) && Good(plan, st) && q.stage in plan && InquiryOk(plan, st, q) && t in plan[q.stage].tasks
    requires Decide(plan[q.stage], q.stage, q.verdicts, q.last, files) == Some(r)
    ensures Placed(st, r, k, t) && t in q.verdicts
    ensures q.verdicts[t] == FailedTask ==> TaskKey(Key(r.key.stage, k), t) in st.evidence && !st.evidence[TaskKey(Key(r.key.stage, k), t)].retryable
  {
    hide Good, ValidPlan, InquiryOk, Newest, Decide;
    DecisionLists(plan, q.stage, q.verdicts, q.last, files, t);
    DecisionKey(plan[q.stage], q.stage, q.verdicts, q.last, files);
    var i := DecisiveIsNewest(plan, st, q, t);
    k := q.records[i].key.attempt;
  }

  lemma DecisionKey(stage: Stage, s: StageId, verdicts: Verdicts, last: nat, files: Files)
    requires Decide(stage, s, verdicts, last, files).Some?
    ensures var r := Decide(stage, s, verdicts, last, files).value;
      && r.key == Key(s, last)
      && (r.decision == Retry ==> last < stage.bound && r.retry == Expected(stage, verdicts))
      && (r.decision == Failed && r.failed != [] && last < stage.bound ==> Category(stage, verdicts, FailedTask) != {})
  {
    hide Sorted, Category;
    NothingSorted(stage);
  }

  lemma LastIsSettled(plan: Plan, st: Store, q: Inquiry)
    requires Good(plan, st) && InquiryOk(plan, st, q)
    ensures Settled(st, q.stage, q.last) && 1 <= q.last <= plan[q.stage].bound
    ensures Rejected(st, q.stage, q.last) ==> st.rejections[Key(q.stage, q.last)].tasks == Expected(plan[q.stage], q.verdicts)
  {
    hide Good, Expected, Gapless, Retried, Full, VerdictsOk, DepsOk;
    var c := q.records[|q.records| - 1].key.attempt;
    assert Recorded(st, q.stage, c);
    RecordIntent(plan, st, q.stage, c);
    assert q.last > c ==> Rejected(st, q.stage, q.last);
  }

  /** Every receipt a reconciliation derives is one the invariant admits. */
  lemma DecidesOk(plan: Plan, st: Store, q: Inquiry, files: Files, r: Receipt)
    requires ValidPlan(plan) && Good(plan, st) && InquiryOk(plan, st, q) && Decides(plan, st, q, files, r)
    ensures ReceiptOk(plan, st, r)
  {
    hide Good, ValidPlan, InquiryOk, Decide, Expected, Structural, InOrder, Placed, Category, Settled;
    var s, stage := q.stage, plan[q.stage];
    LastIsSettled(plan, st, q);
    DecisionKey(stage, s, q.verdicts, q.last, files);
    DecisionStructural(plan, s, q.verdicts, q.last, files);
    forall t | t in stage.tasks ensures exists k: nat :: Placed(st, r, k, t) {
      var k := DecisionPlaces(plan, st, q, files, r, t);
    }
    if r.decision == Failed && r.failed != [] && r.key.attempt < stage.bound { FailsForGood(plan, st, q, files, r); }
  }

  lemma FailsForGood(plan: Plan, st: Store, q: Inquiry, files: Files, r: Receipt)
    requires ValidPlan(plan) && Good(plan, st) && InquiryOk(plan, st, q) && q.stage in plan
    requires Decide(plan[q.stage], q.stage, q.verdicts, q.last, files) == Some(r)
    requires r.decision == Failed && r.failed != [] && r.key.attempt < plan[q.stage].bound
    ensures Hopeless(st, r)
  {
    hide Good, ValidPlan, InquiryOk, Placed, Sorted;
    var s, stage := q.stage, plan[q.stage];
    DecisionKey(stage, s, q.verdicts, q.last, files);
    var failed, retryable := Category(stage, q.verdicts, FailedTask), Category(stage, q.verdicts, RetryTask);
    var t := Member(failed);
    var k := DecisionPlaces(plan, st, q, files, r, t);
    SortedMeans(plan, s, failed + retryable);
    assert t in r.failed;
  }

  lemma Member(tasks: set<TaskId>) returns (t: TaskId)
    requires tasks != {}
    ensures t in tasks
  {
    assert (forall u: TaskId :: u !in tasks) ==> tasks == {};
    t :| t in tasks;
  }
}
