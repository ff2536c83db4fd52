/**
  Safety of the submission protocol over every run: an inductive invariant that
  every step keeps, and the single-submission theorem that follows from it.
*/
module SubmissionSafety {
  import opened Options
  import opened SubmissionProtocol

  // -------------------------------------------------------------- invariant

  /** What a point of the program is entitled to assume about the shared store. */
  datatype Knows = Knows(
    before: bool,           // this call has not tried to create the marker
    uncalled: bool,         // this call has not crossed `sbatch`
    owns: bool,             // the marker names this call
    unrejected: bool,       // no rejection of this identity exists
    called: bool,
    dead: bool,             // this call's `sbatch` provably produced no job
    found: Option<JobId>,   // a job the scheduler showed for this identity
    intent: bool,           // the published intent is this call's contract
    recorded: bool,
    synced: bool,
    replay: bool, owner: Option<Pid>,
    ended: bool)            // a record or a rejection of this identity exists

  const Nothing := Knows(false, false, false, false, false, false, None, false, false, false, false, None, false)
  const Preparing := Nothing.(before := true, uncalled := true)
  const Owning := Nothing.(owns := true, unrejected := true, intent := true)

  function KnownAt(pc: Pc): Knows {
    match pc
    case CheckRecord => Preparing
    case CheckRejection => Preparing
    case ReplayRecord => Preparing.(recorded := true)
    case ReplayRetire(owner) => Preparing.(recorded := true, replay := true, owner := owner)
    case PublishIntent => Preparing
    case QueryBefore => Preparing.(intent := true)
    case CheckMarker(seen) => Preparing.(intent := true, found := seen)
    case YieldToOwner => Preparing.(intent := true)
    case Prepare => Preparing.(intent := true)
    case CreateMarker => Preparing.(intent := true)
    case LostMarker => Nothing.(uncalled := true)
    case RetireLosers => Owning.(uncalled := true)
    case Invoke => Owning.(uncalled := true)
    case AwaitOutcome => Owning.(called := true)
    case QueryAfter(outcome) => Owning.(called := true, dead := outcome.NotInvoked? || outcome.Rejected?)
    case ClearMarker => Owning.(called := true, dead := true)
    case PublishRejection => Owning.(called := true, dead := true)
    case ReadBackRejection => Owning.(called := true, dead := true, unrejected := false)
    case Requery(found, _) => Nothing.(intent := true, found := Some(found))
    case PublishRecord(job, _) => Nothing.(intent := true, found := Some(job))
    case Enqueue(_) => Nothing.(recorded := true)
    case Followups(_) => Nothing.(recorded := true)
    case Synchronize(_) => Nothing.(recorded := true)
    case ReleaseSynced(_, _) => Nothing.(recorded := true, synced := true)
    case Raised => Nothing
    case RejectedExit => Nothing.(ended := true)
    case Stopped => Nothing
  }

  ghost predicate Justified(s: State, p: Pid, id: Identity, contract: Contract, k: Knows) {
    && (k.before ==> MarkerOf(s, id) != Some(p))
    && (k.uncalled ==> p !in s.calls)
    && (k.owns ==> MarkerOf(s, id) == Some(p))
    && (k.unrejected ==> id !in s.rejections)
    && (k.called ==> p in s.calls)
    && (k.dead ==> p in s.calls && s.calls[p] == Dead)
    && (k.found.Some? ==> k.found.value in s.jobs && s.jobs[k.found.value] == id)
    && (k.intent ==> id in s.intents && s.intents[id] == contract)
    && (k.recorded ==> id in s.records)
    && (k.synced ==> id in s.synced)
    && (k.replay ==> k.owner == MarkerOf(s, id))
    && (k.ended ==> id in s.records || id in s.rejections)
  }

  ghost predicate ProcInv(s: State, p: Pid)
    requires p in s.procs
  {
    Justified(s, p, s.procs[p].id, s.procs[p].contract, KnownAt(s.procs[p].pc))
  }

  ghost predicate CallInv(s: State, p: Pid)
    requires p in s.calls
  {
    && p in s.procs
    && (s.calls[p] != Dead ==> MarkerOf(s, s.procs[p].id) == Some(p))
    && (s.calls[p].Ran? ==> s.calls[p].job in s.jobs && s.jobs[s.calls[p].job] == s.procs[p].id)
  }

  ghost predicate JobInv(s: State, j: JobId)
    requires j in s.jobs
  {
    && s.jobs[j] in s.markers
    && s.markers[s.jobs[j]] in s.calls && s.calls[s.markers[s.jobs[j]]] == Ran(j)
  }

  ghost predicate RecordInv(s: State, id: Identity)
    requires id in s.records
  {
    && s.records[id].job in s.jobs && s.jobs[s.records[id].job] == id
    && id in s.intents && s.records[id].contract == s.intents[id]
  }

  ghost predicate RejectionInv(s: State, id: Identity)
    requires id in s.rejections
  {
    && id in s.markers && s.markers[id] in s.calls && s.calls[s.markers[id]] == Dead
    && id in s.intents && s.rejections[id] == s.intents[id]
  }

  /** The scheduler's side: every job is the one call's that the identity's marker names. */
  ghost predicate JobSide(s: State) {
    && s.visible <= s.jobs.Keys
    && (forall j | j in s.jobs :: JobInv(s, j))
    && (forall p | p in s.calls :: CallInv(s, p))
    && (forall id | id in s.markers :: s.markers[id] in s.procs && s.procs[s.markers[id]].id == id)
  }

  ghost predicate FileSide(s: State) {
    && s.claims <= s.procs.Keys
    && (forall id | id in s.records :: RecordInv(s, id))
    && (forall id | id in s.rejections :: RejectionInv(s, id))
    && (forall i | i in s.outbox :: i in s.records)
  }

  ghost predicate ProcsInv(s: State) {
    forall p | p in s.procs :: ProcInv(s, p)
  }

  ghost predicate Inv(s: State) {
    JobSide(s) && FileSide(s) && ProcsInv(s)
  }

  // ------------------------------------------------------------ what steps keep

  /** Between `s` and `t` shared state changes only where call `p` of identity `id` owns it. */
  ghost predicate OwnStep(s: State, t: State, p: Pid, id: Identity) {
    && (forall i | i != id :: MarkerOf(t, i) == MarkerOf(s, i))
    && (MarkerOf(t, id) == MarkerOf(s, id)
        || (id !in s.records && MarkerOf(s, id) in {None, Some(p)} && MarkerOf(t, id) in {None, Some(p)}))
    && (forall q | q != p :: (q in s.calls <==> q in t.calls) && (q in s.calls ==> t.calls[q] == s.calls[q]))
    && (forall i | i in s.rejections :: i in t.rejections)
    && (forall i | i in t.rejections && i !in s.rejections :: i == id && MarkerOf(s, id) == Some(p))
    && (forall i | i in s.intents :: i in t.intents && t.intents[i] == s.intents[i])
    && (forall i | i in s.records :: i in t.records) && s.synced <= t.synced
    && (forall j | j in s.jobs :: j in t.jobs && t.jobs[j] == s.jobs[j])
  }

  lemma KnowsShape(pc: Pc)
    ensures KnownAt(pc).unrejected ==> KnownAt(pc).owns
    ensures KnownAt(pc).replay ==> KnownAt(pc).recorded
  {
  }

  lemma OtherKeeps(s: State, t: State, p: Pid, own: Identity, q: Pid, id: Identity, c: Contract, k: Knows)
    requires q != p && OwnStep(s, t, p, own) && Justified(s, q, id, c, k)
    requires (k.unrejected ==> k.owns) && (k.replay ==> k.recorded)
    ensures Justified(t, q, id, c, k)
  {
  }

  /** If one call moves and changes only what it owns, every other call still knows what it knew. */
  lemma OthersKeep(s: State, t: State, p: Pid, id: Identity)
    requires ProcsInv(s) && OwnStep(s, t, p, id) && s.procs.Keys <= t.procs.Keys <= s.procs.Keys + {p}
    requires forall q | q in s.procs && q != p :: t.procs[q] == s.procs[q]
    requires p in t.procs && ProcInv(t, p)
    ensures ProcsInv(t)
  {
    hide OwnStep, Justified, KnownAt;
    forall q | q in t.procs ensures ProcInv(t, q) {
      if q != p {
        assert ProcInv(s, q);
        KnowsShape(s.procs[q].pc);
        OtherKeeps(s, t, p, id, q, s.procs[q].id, s.procs[q].contract, KnownAt(s.procs[q].pc));
      }
    }
  }

  lemma OwnsNothingNew(s: State, t: State, p: Pid, id: Identity)
    requires t.markers == s.markers && t.calls == s.calls && t.rejections == s.rejections && t.intents == s.intents
    requires t.records == s.records && t.jobs == s.jobs && s.synced <= t.synced
    ensures OwnStep(s, t, p, id)
  {
  }

  ghost predicate SameIds(s: State, t: State) {
    forall p | p in s.procs :: p in t.procs && t.procs[p].id == s.procs[p].id
  }

  lemma JobsKept(s: State, t: State)
    requires JobSide(s) && SameIds(s, t)
    requires t.jobs == s.jobs && t.visible == s.visible && t.calls == s.calls && t.markers == s.markers
    ensures JobSide(t)
  {
    forall q | q in t.calls ensures CallInv(t, q) { assert CallInv(s, q); }
    forall j | j in t.jobs ensures JobInv(t, j) { assert JobInv(s, j); }
  }

  lemma FilesKept(s: State, t: State)
    requires FileSide(s) && t.claims <= t.procs.Keys && (forall i | i in t.outbox :: i in t.records)
    requires t.records == s.records && t.rejections == s.rejections && t.intents == s.intents
    requires t.jobs == s.jobs && t.calls == s.calls && t.markers == s.markers
    ensures FileSide(t)
  {
    forall i | i in t.records ensures RecordInv(t, i) { assert RecordInv(s, i); }
    forall i | i in t.rejections ensures RejectionInv(t, i) { assert RejectionInv(s, i); }
  }

  lemma ProcOf(s: State, p: Pid)
    requires ProcsInv(s) && p in s.procs
    ensures ProcInv(s, p)
  {
  }

  lemma CallOf(s: State, p: Pid)
    requires JobSide(s) && p in s.calls
    ensures CallInv(s, p)
  {
  }

  /** A step that moves one call and releases claims. */
  lemma LocalStep(s: State, t: State, p: Pid, pc: Pc)
    requires Inv(s) && p in s.procs && t == Go(s, p, pc).(claims := t.claims) && t.claims <= s.claims
    requires Justified(s, p, s.procs[p].id, s.procs[p].contract, KnownAt(pc))
    ensures Inv(t)
  {
    hide JobSide, FileSide, ProcsInv, KnownAt, OwnStep;
    ClaimsKnown(s);
    JobsKept(s, t);
    FilesKept(s, t);
    assert ProcInv(t, p);
    OwnsNothingNew(s, t, p, s.procs[p].id);
    OthersKeep(s, t, p, s.procs[p].id);
  }

  lemma ClaimsKnown(s: State)
    requires FileSide(s)
    ensures s.claims <= s.procs.Keys && (forall i | i in s.outbox :: i in s.records)
  {
  }

  lemma FreshCall(s: State, p: Pid, id: Identity)
    requires JobSide(s) && p !in s.procs
    ensures p !in s.calls && MarkerOf(s, id) != Some(p)
  {
  }

  lemma KeepsStart(s: State, t: State, p: Pid, id: Identity, contract: Contract)
    requires Inv(s) && Start(s, t, p, id, contract)
    ensures Inv(t)
  {
    hide JobSide, FileSide, ProcsInv, OwnStep;
    FreshCall(s, p, id);
    ClaimsKnown(s);
    JobsKept(s, t);
    FilesKept(s, t);
    OwnsNothingNew(s, t, p, id);
    OthersKeep(s, t, p, id);
  }

  lemma KeepsStartRepair(s: State, t: State, p: Pid, id: Identity)
    requires Inv(s) && StartRepair(s, t, p, id)
    ensures Inv(t)
  {
    hide JobSide, FileSide, ProcsInv, OwnStep;
    ClaimsKnown(s);
    assert id in s.records;
    JobsKept(s, t);
    FilesKept(s, t);
    OwnsNothingNew(s, t, p, id);
    OthersKeep(s, t, p, id);
  }

  lemma KeepsRead(s: State, t: State, p: Pid, read: Read)
    requires Inv(s) && p in s.procs && CanRead(s, p, read) && t == Go(s, p, AfterRead(s, p, read))
    ensures Inv(t)
  {
    hide JobSide, FileSide, ProcsInv, CanRead, AfterRead, KnownAt, Justified;
    ReadKnows(s, p, read);
    LocalStep(s, t, p, t.procs[p].pc);
  }

  predicate BeforeInvoking(read: Read) {
    read.ReadRecord? || read.ReadRejection? || read.ReadReplayOwner? || read.Query? || read.ReadMarker? || read.Prepared?
  }

  /** After reading, a call knows what its next point of the program assumes. */
  lemma ReadKnows(s: State, p: Pid, read: Read)
    requires Inv(s) && CanRead(s, p, read)
    ensures Justified(s, p, s.procs[p].id, s.procs[p].contract, KnownAt(AfterRead(s, p, read)))
  {
    hide Inv, Justified, AfterRead, KnownAt;
    if BeforeInvoking(read) {
      EarlyReadKnows(s, p, read);
    } else if read.Return? {
      ReturnKnows(s, p, read);
    } else if read.QueryAgain? {
      QueryAgainKnows(s, p, read);
    } else if read.ReadBack? || read.QueryAccepted? {
      LateReadKnows(s, p, read);
    } else {
      LeavingKnows(s, p, read);
    }
  }

  lemma EarlyReadKnows(s: State, p: Pid, read: Read)
    requires Inv(s) && CanRead(s, p, read) && BeforeInvoking(read)
    ensures Justified(s, p, s.procs[p].id, s.procs[p].contract, KnownAt(AfterRead(s, p, read)))
  {
    hide JobSide, FileSide, ProcsInv;
    ProcOf(s, p);
  }

  lemma LateReadKnows(s: State, p: Pid, read: Read)
    requires Inv(s) && CanRead(s, p, read) && (read.ReadBack? || read.QueryAccepted?)
    ensures Justified(s, p, s.procs[p].id, s.procs[p].contract, KnownAt(AfterRead(s, p, read)))
  {
    hide JobSide, FileSide, ProcsInv;
    ProcOf(s, p);
  }

  lemma QueryAgainKnows(s: State, p: Pid, read: Read)
    requires Inv(s) && CanRead(s, p, read) && read.QueryAgain?
    ensures Justified(s, p, s.procs[p].id, s.procs[p].contract, KnownAt(AfterRead(s, p, read)))
  {
    hide JobSide, FileSide, ProcsInv;
    ProcOf(s, p);
  }

  lemma ReturnKnows(s: State, p: Pid, read: Read)
    requires Inv(s) && CanRead(s, p, read) && read.Return?
    ensures Justified(s, p, s.procs[p].id, s.procs[p].contract, KnownAt(AfterRead(s, p, read)))
  {
    hide JobSide, FileSide, ProcsInv;
    ProcOf(s, p);
    CallOf(s, p);
  }

  lemma FollowupsRecorded(s: State, p: Pid)
    requires ProcsInv(s) && p in s.procs && s.procs[p].pc.Followups?
    ensures s.procs[p].id in s.records
  {
    ProcOf(s, p);
  }

  lemma LeavingKnows(s: State, p: Pid, read: Read)
    requires Inv(s) && CanRead(s, p, read) && (read.FollowupsDone? || read.FollowupsRejected? || read.RaiseError? || read.Crash?)
    ensures Justified(s, p, s.procs[p].id, s.procs[p].contract, KnownAt(AfterRead(s, p, read)))
  {
    hide JobSide, FileSide, ProcsInv;
    if read.FollowupsDone? || read.FollowupsRejected? { FollowupsRecorded(s, p); }
  }

  lemma KeepsRelease(s: State, t: State, p: Pid, release: Release)
    requires Inv(s) && p in s.procs && CanRelease(s, p, release)
    requires t == Go(s, p, AfterRelease(s, p, release)).(claims := s.claims - Released(s, p, release))
    ensures Inv(t)
  {
    hide JobSide, FileSide, ProcsInv, CanRelease, AfterRelease, Released, KnownAt, Justified;
    ReleaseKnows(s, p, release);
    LocalStep(s, t, p, t.procs[p].pc);
  }

  lemma InvProc(s: State, p: Pid)
    requires Inv(s) && p in s.procs
    ensures ProcInv(s, p)
  {
    hide JobSide, FileSide, Justified;
  }

  lemma ReleaseKnows(s: State, p: Pid, release: Release)
    requires Inv(s) && CanRelease(s, p, release)
    ensures Justified(s, p, s.procs[p].id, s.procs[p].contract, KnownAt(AfterRelease(s, p, release)))
  {
    hide Inv, JobSide, FileSide, ProcsInv, Matching, MarkerOf;
    assert ProcInv(s, p) by { InvProc(s, p); }
  }

  lemma KeepsAmbient(s: State, t: State)
    requires Inv(s) && t == s.(claims := t.claims, transition := t.transition) && t.claims <= s.claims
    ensures Inv(t)
  {
    hide JobSide, FileSide, Justified;
    ClaimsKnown(s);
    JobsKept(s, t);
    FilesKept(s, t);
    forall q | q in t.procs ensures ProcInv(t, q) { JustifiedSame(s, t, q); }
  }

  lemma JustifiedSame(s: State, t: State, q: Pid)
    requires ProcsInv(s) && t == s.(claims := t.claims, transition := t.transition) && q in s.procs
    ensures ProcInv(t, q)
  {
    assert ProcInv(s, q);
    hide KnownAt;
  }

  /** Outbox writes touch nothing that any call relies on. */
  lemma OutboxStep(s: State, t: State, p: Pid)
    requires Inv(s) && p in s.procs && p in t.procs && t == s.(procs := t.procs, outbox := t.outbox, synced := t.synced)
    requires t.procs == s.procs[p := t.procs[p]] && t.procs[p].id == s.procs[p].id && s.synced <= t.synced
    requires (forall i | i in t.outbox :: i in s.records) && ProcInv(t, p)
    ensures Inv(t)
  {
    hide JobSide, FileSide, ProcsInv, OwnStep, ProcInv;
    ClaimsKnown(s);
    JobsKept(s, t);
    FilesKept(s, t);
    OwnsNothingNew(s, t, p, s.procs[p].id);
    OthersKeep(s, t, p, s.procs[p].id);
  }

  lemma RecordedAlready(s: State, p: Pid)
    requires ProcsInv(s) && p in s.procs && (s.procs[p].pc.Enqueue? || s.procs[p].pc.Synchronize?)
    ensures s.procs[p].id in s.records
  {
    ProcOf(s, p);
  }

  lemma KeepsEnqueueUpdate(s: State, t: State, p: Pid)
    requires Inv(s) && EnqueueUpdate(s, t, p)
    ensures Inv(t)
  {
    hide JobSide, FileSide, ProcsInv;
    ClaimsKnown(s);
    RecordedAlready(s, p);
    OutboxStep(s, t, p);
  }

  lemma KeepsSyncRegistry(s: State, t: State, p: Pid, ok: bool)
    requires Inv(s) && SyncRegistry(s, t, p, ok)
    ensures Inv(t)
  {
    hide JobSide, FileSide, ProcsInv;
    ClaimsKnown(s);
    RecordedAlready(s, p);
    OutboxStep(s, t, p);
  }

  lemma KeepsClearOutbox(s: State, t: State, p: Pid)
    requires Inv(s) && ClearOutbox(s, t, p)
    ensures Inv(t)
  {
    hide JobSide, FileSide, ProcsInv;
    ClaimsKnown(s);
    OutboxStep(s, t, p);
  }

  lemma KeepsWriteIntent(s: State, t: State, p: Pid)
    requires Inv(s) && WriteIntent(s, t, p)
    ensures Inv(t)
  {
    hide JobSide, ProcsInv, OwnStep, ProcInv, KnownAt, Justified;
    forall i | i in t.records ensures RecordInv(t, i) { assert RecordInv(s, i); }
    forall i | i in t.rejections ensures RejectionInv(t, i) { assert RejectionInv(s, i); }
    WriteIntentViews(s, t, p);
    JobsKept(s, t);
    OthersKeep(s, t, p, s.procs[p].id);
  }

  lemma WriteIntentViews(s: State, t: State, p: Pid)
    requires Inv(s) && WriteIntent(s, t, p)
    ensures ProcInv(t, p) && OwnStep(s, t, p, s.procs[p].id)
  {
    hide JobSide, FileSide, ProcsInv;
    ProcOf(s, p);
  }

  /** An identity without a marker has no job, no record and no rejection. */
  lemma UnmarkedUnused(s: State, id: Identity)
    requires JobSide(s) && FileSide(s) && id !in s.markers
    ensures id !in s.records && id !in s.rejections
    ensures forall j | j in s.jobs :: s.jobs[j] != id
  {
    forall j | j in s.jobs ensures s.jobs[j] != id { assert JobInv(s, j); }
    assert id in s.records ==> RecordInv(s, id);
    assert id in s.rejections ==> RejectionInv(s, id);
  }

  /** Creating the marker is possible only while the identity has no job and no rejection. */
  lemma KeepsWriteMarker(s: State, t: State, p: Pid, created: bool, reply: Reply)
    requires Inv(s) && WriteMarker(s, t, p, created, reply)
    ensures Inv(t)
  {
    hide JobSide, ProcsInv, OwnStep, ProcInv, KnownAt, Justified;
    WriteMarkerViews(s, t, p, created, reply);
    WriteMarkerJobs(s, t, p, created, reply);
    forall i | i in t.records ensures RecordInv(t, i) { assert RecordInv(s, i); }
    forall i | i in t.rejections ensures RejectionInv(t, i) { assert RejectionInv(s, i); }
    OthersKeep(s, t, p, s.procs[p].id);
  }

  lemma WriteMarkerJobs(s: State, t: State, p: Pid, created: bool, reply: Reply)
    requires Inv(s) && WriteMarker(s, t, p, created, reply)
    ensures JobSide(t)
  {
    hide FileSide, ProcsInv;
    forall q | q in t.calls ensures CallInv(t, q) { assert CallInv(s, q); }
    forall j | j in t.jobs ensures JobInv(t, j) { assert JobInv(s, j); }
  }

  lemma WriteMarkerViews(s: State, t: State, p: Pid, created: bool, reply: Reply)
    requires Inv(s) && WriteMarker(s, t, p, created, reply)
    ensures ProcInv(t, p) && OwnStep(s, t, p, s.procs[p].id)
  {
    hide JobSide, FileSide, ProcsInv, OwnStep, ProcInv;
    WriteMarkerSelf(s, t, p, created, reply);
    WriteMarkerOwn(s, t, p, created, reply);
  }

  lemma WriteMarkerSelf(s: State, t: State, p: Pid, created: bool, reply: Reply)
    requires Inv(s) && WriteMarker(s, t, p, created, reply)
    ensures ProcInv(t, p)
  {
    hide JobSide, FileSide, ProcsInv, OwnStep;
    ProcOf(s, p);
    if created { UnmarkedUnused(s, s.procs[p].id); }
  }

  lemma WriteMarkerOwn(s: State, t: State, p: Pid, created: bool, reply: Reply)
    requires Inv(s) && WriteMarker(s, t, p, created, reply)
    ensures OwnStep(s, t, p, s.procs[p].id)
  {
    hide JobSide, FileSide, ProcsInv;
    if created { UnmarkedUnused(s, s.procs[p].id); }
  }

  lemma KeepsCallSbatch(s: State, t: State, p: Pid)
    requires Inv(s) && CallSbatch(s, t, p)
    ensures Inv(t)
  {
    hide JobSide, FileSide, ProcsInv, OwnStep, ProcInv, KnownAt, Justified;
    CallSbatchViews(s, t, p);
    CallSbatchJobs(s, t, p);
    CallSbatchFiles(s, t, p);
    OthersKeep(s, t, p, s.procs[p].id);
  }

  lemma CallSbatchJobs(s: State, t: State, p: Pid)
    requires Inv(s) && CallSbatch(s, t, p)
    ensures JobSide(t)
  {
    hide FileSide, ProcsInv;
    ProcOf(s, p);
    forall q | q in t.calls ensures CallInv(t, q) { if q in s.calls { assert CallInv(s, q); } }
    forall j | j in t.jobs ensures JobInv(t, j) { assert JobInv(s, j); }
  }

  lemma CallSbatchFiles(s: State, t: State, p: Pid)
    requires Inv(s) && CallSbatch(s, t, p)
    ensures FileSide(t)
  {
    hide JobSide, ProcsInv;
    ProcOf(s, p);
    forall i | i in t.records ensures RecordInv(t, i) { assert RecordInv(s, i); }
    forall i | i in t.rejections ensures RejectionInv(t, i) { assert RejectionInv(s, i); }
  }

  lemma CallSbatchViews(s: State, t: State, p: Pid)
    requires Inv(s) && CallSbatch(s, t, p)
    ensures ProcInv(t, p) && OwnStep(s, t, p, s.procs[p].id)
  {
    hide JobSide, FileSide, ProcsInv;
    ProcOf(s, p);
  }

  /** Only the owner clears the marker, and only once its own call is proven dead. */
  lemma KeepsCompareClear(s: State, t: State, p: Pid, applied: bool, reply: Reply)
    requires Inv(s) && CompareClear(s, t, p, applied, reply)
    ensures Inv(t)
  {
    hide JobSide, FileSide, ProcsInv, OwnStep, ProcInv, KnownAt, Justified;
    CompareClearViews(s, t, p, applied, reply);
    CompareClearJobs(s, t, p, applied, reply);
    CompareClearFiles(s, t, p, applied, reply);
    OthersKeep(s, t, p, s.procs[p].id);
  }

  lemma CompareClearJobs(s: State, t: State, p: Pid, applied: bool, reply: Reply)
    requires Inv(s) && CompareClear(s, t, p, applied, reply)
    ensures JobSide(t)
  {
    hide FileSide, JobSide, ProcsInv;
    ProcOf(s, p);
    assert s.calls[p] == Dead;
    ClearedJobs(s, t, p, applied);
  }

  /** Clearing the marker of a dead call takes it from nobody else. */
  lemma ClearedJobs(s: State, t: State, p: Pid, applied: bool)
    requires JobSide(s) && p in s.calls && s.calls[p] == Dead && p in s.procs
    requires t.visible == s.visible && t.jobs == s.jobs && t.calls == s.calls && t.procs.Keys == s.procs.Keys
    requires forall q | q in s.procs :: t.procs[q].id == s.procs[q].id
    requires if applied then MarkerOf(s, s.procs[p].id) == Some(p) && t.markers == s.markers - {s.procs[p].id} else t.markers == s.markers
    ensures JobSide(t)
  {
    forall q | q in t.calls ensures CallInv(t, q) { assert CallInv(s, q); hide JobSide; }
    forall j | j in t.jobs ensures JobInv(t, j) { assert JobInv(s, j); hide JobSide; }
  }

  lemma CompareClearFiles(s: State, t: State, p: Pid, applied: bool, reply: Reply)
    requires Inv(s) && CompareClear(s, t, p, applied, reply)
    ensures FileSide(t)
  {
    hide JobSide, ProcsInv;
    ProcOf(s, p);
    forall i | i in t.records ensures RecordInv(t, i) { assert RecordInv(s, i); }
    forall i | i in t.rejections ensures RejectionInv(t, i) { assert RejectionInv(s, i); }
  }

  lemma CompareClearViews(s: State, t: State, p: Pid, applied: bool, reply: Reply)
    requires Inv(s) && CompareClear(s, t, p, applied, reply)
    ensures ProcInv(t, p) && OwnStep(s, t, p, s.procs[p].id)
  {
    hide JobSide, FileSide, ProcsInv, OwnStep, ProcInv;
    CompareClearSelf(s, t, p, applied, reply);
    CompareClearOwn(s, t, p, applied, reply);
  }

  lemma CompareClearSelf(s: State, t: State, p: Pid, applied: bool, reply: Reply)
    requires Inv(s) && CompareClear(s, t, p, applied, reply)
    ensures ProcInv(t, p)
  {
    hide JobSide, FileSide, ProcsInv, OwnStep;
    ProcOf(s, p);
  }

  lemma CompareClearOwn(s: State, t: State, p: Pid, applied: bool, reply: Reply)
    requires Inv(s) && CompareClear(s, t, p, applied, reply)
    ensures OwnStep(s, t, p, s.procs[p].id)
  {
    hide JobSide, FileSide, ProcsInv;
    ProcOf(s, p);
    DeadCallUnrecorded(s, p);
  }

  /** If the marker names a call that produced no job, the identity has no record. */
  lemma DeadCallUnrecorded(s: State, p: Pid)
    requires JobSide(s) && FileSide(s) && p in s.procs && p in s.calls && s.calls[p] == Dead
    requires MarkerOf(s, s.procs[p].id) == Some(p)
    ensures s.procs[p].id !in s.records
  {
    var id := s.procs[p].id;
    assert id in s.records ==> RecordInv(s, id) && JobInv(s, s.records[id].job);
  }

  lemma KeepsWriteRejection(s: State, t: State, p: Pid, written: bool, ok: bool)
    requires Inv(s) && WriteRejection(s, t, p, written, ok)
    ensures Inv(t)
  {
    hide JobSide, FileSide, ProcsInv, OwnStep, ProcInv, KnownAt, Justified;
    WriteRejectionViews(s, t, p, written, ok);
    JobsKept(s, t);
    WriteRejectionFiles(s, t, p, written, ok);
    OthersKeep(s, t, p, s.procs[p].id);
  }

  lemma WriteRejectionFiles(s: State, t: State, p: Pid, written: bool, ok: bool)
    requires Inv(s) && WriteRejection(s, t, p, written, ok)
    ensures FileSide(t)
  {
    hide JobSide, ProcsInv;
    ProcOf(s, p);
    forall i | i in t.records ensures RecordInv(t, i) { assert RecordInv(s, i); }
    forall i | i in t.rejections ensures RejectionInv(t, i) { if i in s.rejections { assert RejectionInv(s, i); } }
  }

  lemma WriteRejectionViews(s: State, t: State, p: Pid, written: bool, ok: bool)
    requires Inv(s) && WriteRejection(s, t, p, written, ok)
    ensures ProcInv(t, p) && OwnStep(s, t, p, s.procs[p].id)
  {
    hide JobSide, FileSide, ProcsInv, OwnStep, ProcInv;
    WriteRejectionSelf(s, t, p, written, ok);
    WriteRejectionOwn(s, t, p, written, ok);
  }

  lemma WriteRejectionSelf(s: State, t: State, p: Pid, written: bool, ok: bool)
    requires Inv(s) && WriteRejection(s, t, p, written, ok)
    ensures ProcInv(t, p)
  {
    hide JobSide, FileSide, ProcsInv, OwnStep;
    ProcOf(s, p);
  }

  lemma WriteRejectionOwn(s: State, t: State, p: Pid, written: bool, ok: bool)
    requires Inv(s) && WriteRejection(s, t, p, written, ok)
    ensures OwnStep(s, t, p, s.procs[p].id)
  {
    hide JobSide, FileSide, ProcsInv;
    ProcOf(s, p);
  }

  lemma KeepsWriteRecord(s: State, t: State, p: Pid, written: bool, ok: bool)
    requires Inv(s) && WriteRecord(s, t, p, written, ok)
    ensures Inv(t)
  {
    hide JobSide, FileSide, ProcsInv, OwnStep, ProcInv, KnownAt, Justified;
    WriteRecordViews(s, t, p, written, ok);
    JobsKept(s, t);
    WriteRecordFiles(s, t, p, written, ok);
    OthersKeep(s, t, p, s.procs[p].id);
  }

  lemma WriteRecordFiles(s: State, t: State, p: Pid, written: bool, ok: bool)
    requires Inv(s) && WriteRecord(s, t, p, written, ok)
    ensures FileSide(t)
  {
    hide JobSide, ProcsInv;
    ProcOf(s, p);
    forall i | i in t.records ensures RecordInv(t, i) { if i in s.records { assert RecordInv(s, i); } }
    forall i | i in t.rejections ensures RejectionInv(t, i) { assert RejectionInv(s, i); }
  }

  lemma WriteRecordViews(s: State, t: State, p: Pid, written: bool, ok: bool)
    requires Inv(s) && WriteRecord(s, t, p, written, ok)
    ensures ProcInv(t, p) && OwnStep(s, t, p, s.procs[p].id)
  {
    hide JobSide, FileSide, ProcsInv, OwnStep, ProcInv;
    WriteRecordSelf(s, t, p, written, ok);
    WriteRecordOwn(s, t, p, written, ok);
  }

  lemma WriteRecordSelf(s: State, t: State, p: Pid, written: bool, ok: bool)
    requires Inv(s) && WriteRecord(s, t, p, written, ok)
    ensures ProcInv(t, p)
  {
    hide JobSide, FileSide, ProcsInv, OwnStep;
  }

  lemma WriteRecordOwn(s: State, t: State, p: Pid, written: bool, ok: bool)
    requires Inv(s) && WriteRecord(s, t, p, written, ok)
    ensures OwnStep(s, t, p, s.procs[p].id)
  {
    hide JobSide, FileSide, ProcsInv;
    RecordsGrow(s, t, p);
  }

  lemma RecordsGrow(s: State, t: State, p: Pid)
    requires p in s.procs && t == s.(procs := t.procs, records := t.records) && (forall i | i in s.records :: i in t.records)
    ensures OwnStep(s, t, p, s.procs[p].id)
  {
  }

  lemma KeepsSchedulerAccepts(s: State, t: State, p: Pid, job: JobId)
    requires Inv(s) && SchedulerAccepts(s, t, p, job)
    ensures Inv(t)
  {
    hide JobSide, FileSide, ProcsInv, OwnStep, ProcInv, KnownAt, Justified;
    CallOf(s, p);
    assert JobSide(t) by { AcceptsJobs(s, t, p, job); }
    assert FileSide(t) by { AnswerFiles(s, t, p); }
    assert ProcInv(t, p) && OwnStep(s, t, p, s.procs[p].id) by { AnswerViews(s, t, p); }
    OthersKeep(s, t, p, s.procs[p].id);
  }

  lemma AcceptsJobs(s: State, t: State, p: Pid, job: JobId)
    requires Inv(s) && SchedulerAccepts(s, t, p, job)
    ensures JobSide(t)
  {
    hide FileSide, ProcsInv;
    assert CallInv(s, p);
    forall q | q in t.calls ensures CallInv(t, q) { assert CallInv(s, q); }
    forall j | j in t.jobs ensures JobInv(t, j) { if j != job { assert JobInv(s, j); } }
  }

  /** The scheduler settled the in-flight call of `p`, one way or the other. */
  ghost predicate Answered(s: State, t: State, p: Pid) {
    && p in s.calls && s.calls[p] == InFlight && p in t.calls && t.calls == s.calls[p := t.calls[p]]
    && t == s.(jobs := t.jobs, calls := t.calls)
    && (forall j | j in s.jobs :: j in t.jobs && t.jobs[j] == s.jobs[j])
  }

  lemma AnswerFiles(s: State, t: State, p: Pid)
    requires Inv(s) && Answered(s, t, p)
    ensures FileSide(t)
  {
    hide JobSide, ProcsInv;
    forall i | i in t.records ensures RecordInv(t, i) { assert RecordInv(s, i); }
    forall i | i in t.rejections ensures RejectionInv(t, i) { assert RejectionInv(s, i); }
  }

  lemma AnswerViews(s: State, t: State, p: Pid)
    requires Inv(s) && Answered(s, t, p)
    ensures p in t.procs && ProcInv(t, p) && OwnStep(s, t, p, s.procs[p].id)
  {
    hide JobSide, FileSide, ProcsInv, KnownAt;
    CallOf(s, p);
    ProcOf(s, p);
  }

  lemma KeepsSchedulerRefuses(s: State, t: State, p: Pid)
    requires Inv(s) && SchedulerRefuses(s, t, p)
    ensures Inv(t)
  {
    hide JobSide, FileSide, ProcsInv, OwnStep, ProcInv, KnownAt, Justified;
    CallOf(s, p);
    assert JobSide(t) by { RefusesJobs(s, t, p); }
    assert FileSide(t) by { AnswerFiles(s, t, p); }
    assert ProcInv(t, p) && OwnStep(s, t, p, s.procs[p].id) by { AnswerViews(s, t, p); }
    OthersKeep(s, t, p, s.procs[p].id);
  }

  lemma RefusesJobs(s: State, t: State, p: Pid)
    requires Inv(s) && SchedulerRefuses(s, t, p)
    ensures JobSide(t)
  {
    hide FileSide, ProcsInv;
    forall q | q in t.calls ensures CallInv(t, q) { assert CallInv(s, q); }
    forall j | j in t.jobs ensures JobInv(t, j) { assert JobInv(s, j); }
  }

  lemma KeepsBecomesVisible(s: State, t: State, job: JobId)
    requires Inv(s) && BecomesVisible(s, t, job)
    ensures Inv(t)
  {
    hide FileSide, ProcsInv;
    ClaimsKnown(s);
    FilesKept(s, t);
    assert ProcsInv(t) by { VisibleViews(s, t, job); }
    forall q | q in t.calls ensures CallInv(t, q) { assert CallInv(s, q); }
    forall j | j in t.jobs ensures JobInv(t, j) { assert JobInv(s, j); }
  }

  lemma VisibleViews(s: State, t: State, job: JobId)
    requires ProcsInv(s) && BecomesVisible(s, t, job)
    ensures ProcsInv(t)
  {
    hide KnownAt;
    forall q | q in t.procs ensures ProcInv(t, q) { assert ProcInv(s, q); }
  }

  lemma KeepsWrite(s: State, t: State, p: Pid, write: Write)
    requires Inv(s) && Wrote(s, t, p, write)
    ensures Inv(t)
  {
    hide Inv, WriteIntent, WriteMarker, CallSbatch, CompareClear, WriteRejection, WriteRecord, EnqueueUpdate, SyncRegistry, ClearOutbox;
    match write
    case Intent => KeepsWriteIntent(s, t, p);
    case Marker(created, reply) => KeepsWriteMarker(s, t, p, created, reply);
    case Sbatch => KeepsCallSbatch(s, t, p);
    case Clear(applied, reply) => KeepsCompareClear(s, t, p, applied, reply);
    case Rejection(written, ok) => KeepsWriteRejection(s, t, p, written, ok);
    case Recording(written, ok) => KeepsWriteRecord(s, t, p, written, ok);
    case Enqueueing => KeepsEnqueueUpdate(s, t, p);
    case Syncing(ok) => KeepsSyncRegistry(s, t, p, ok);
    case ClearingOutbox => KeepsClearOutbox(s, t, p);
  }

  lemma KeepsEvent(s: State, t: State, event: World)
    requires Inv(s) && Happens(s, t, event)
    ensures Inv(t)
  {
    hide Inv, Start, StartRepair, SchedulerAccepts, SchedulerRefuses, BecomesVisible;
    match event
    case Starts(p, id, contract) => KeepsStart(s, t, p, id, contract);
    case StartsRepair(p, id) => KeepsStartRepair(s, t, p, id);
    case RetiresRejected(_, _) => KeepsAmbient(s, t);
    case Accepts(p, job) => KeepsSchedulerAccepts(s, t, p, job);
    case Refuses(p) => KeepsSchedulerRefuses(s, t, p);
    case Shows(job) => KeepsBecomesVisible(s, t, job);
    case Transition => KeepsAmbient(s, t);
  }

  /** Every step of every call, of the scheduler and of a transition keeps the invariant. */
  lemma InvNext(s: State, t: State, step: Step)
    requires Inv(s) && Next(s, t, step)
    ensures Inv(t)
  {
    hide Inv, Wrote, Happens, CanRead, AfterRead, CanRelease, AfterRelease, Released;
    match step
    case Reads(p, read) => KeepsRead(s, t, p, read);
    case Releases(p, release) => KeepsRelease(s, t, p, release);
    case Writes(p, write) => KeepsWrite(s, t, p, write);
    case Outside(event) => KeepsEvent(s, t, event);
  }

  // ---------------------------------------------------------------- theorems

  lemma {:induction false} InvRun(states: seq<State>, steps: seq<Step>)
    requires IsRun(states, steps)
    ensures forall i | 0 <= i < |states| :: Inv(states[i])
    decreases |steps|
  {
    if steps == [] {
      assert Inv(Init);
    } else {
      var n := |steps| - 1;
      hide Inv, Next;
      InvRun(states[..n + 1], steps[..n]);
      assert states[..n + 1][n] == states[n];
      InvNext(states[n], states[n + 1], steps[n]);
      forall i | 0 <= i < |states| ensures Inv(states[i]) {
        if i <= n { assert states[..n + 1][i] == states[i]; }
      }
    }
  }

  /**
    In every state of every run, whatever crashed, was lost or arrived late:
    at most one job was ever accepted for an identity, no identity has both a record
    and a rejection, and a record names the accepted job and the published intent.
  */
  lemma AtMostOneJob(states: seq<State>, steps: seq<Step>, i: nat)
    requires IsRun(states, steps) && i < |states|
    ensures var s := states[i];
            && (forall j, k | j in s.jobs && k in s.jobs :: s.jobs[j] == s.jobs[k] ==> j == k)
            && s.records.Keys !! s.rejections.Keys
            && (forall id | id in s.records ::
                  && s.records[id].job in s.jobs && s.jobs[s.records[id].job] == id
                  && id in s.intents && s.intents[id] == s.records[id].contract)
            && (forall id, j | id in s.rejections && j in s.jobs :: s.jobs[j] != id)
  {
    InvRun(states, steps);
    var s := states[i];
    assert Inv(s);
    forall j, k | j in s.jobs && k in s.jobs && s.jobs[j] == s.jobs[k] ensures j == k {
      assert JobInv(s, j) && JobInv(s, k);
    }
    forall id | id in s.records ensures id !in s.rejections && s.jobs[s.records[id].job] == id {
      assert RecordInv(s, id) && JobInv(s, s.records[id].job);
    }
    forall id, j | id in s.rejections && j in s.jobs ensures s.jobs[j] != id {
      assert RejectionInv(s, id) && JobInv(s, j);
    }
  }
}
