/**
  The idempotent submission protocol as a transition system.

  Any number of calls of `submit_stage` (and of the registry repair pass) run
  concurrently over one durable store, one set of lifecycle claims and one
  scheduler. A call is identified with the unguessable claim token it acquires,
  so a `Pid` names both. Every step is one atomic backend operation; a call may
  crash between any two of them, a response may be lost after its write took
  effect, and an `sbatch` may be accepted, or its job become visible, at any later
  moment.
*/
module SubmissionProtocol {
  import opened Options

  type Pid = nat
  type JobId = nat
  type Contract = nat   // the canonical intent text, up to equality of bytes

  datatype Identity = Identity(stage: string, attempt: nat)

  datatype Record = Record(job: JobId, contract: Contract)

  /** What has become of the single `sbatch` that one call may issue. */
  datatype Call = InFlight | Dead | Ran(job: JobId)

  /** The outcome a backend reports for an invocation. */
  datatype Outcome = Accepted(job: JobId) | NotInvoked | Rejected | Unknown

  /** How a fenced write answered: applied, refused or lost, or with an exception. */
  datatype Reply = Confirmed | Unconfirmed | Failed

  datatype Pc =
    | CheckRecord
    | CheckRejection
    | ReplayRecord
    | ReplayRetire(owner: Option<Pid>)
    | PublishIntent
    | QueryBefore
    | CheckMarker(seen: Option<JobId>)
    | YieldToOwner
    | Prepare
    | CreateMarker
    | LostMarker
    | RetireLosers
    | Invoke
    | AwaitOutcome
    | QueryAfter(outcome: Outcome)
    | ClearMarker
    | PublishRejection
    | ReadBackRejection
    | Requery(found: JobId, known: Option<Pid>)
    | PublishRecord(job: JobId, known: Option<Pid>)
    | Enqueue(holders: set<Pid>)
    | Followups(holders: set<Pid>)
    | Synchronize(holders: set<Pid>)
    | ReleaseSynced(text: set<Pid>, left: set<Pid>)
    | Raised
    | RejectedExit
    | Stopped

  datatype Proc = Proc(id: Identity, contract: Contract, pc: Pc)

  datatype State = State(
    intents: map<Identity, Contract>,
    markers: map<Identity, Pid>,
    rejections: map<Identity, Contract>,
    records: map<Identity, Record>,
    claims: set<Pid>,
    outbox: map<Identity, set<Pid>>,
    synced: set<Identity>,
    transition: bool,
    jobs: map<JobId, Identity>,
    visible: set<JobId>,
    calls: map<Pid, Call>,
    procs: map<Pid, Proc>,
    cleared: set<Identity>   // history: identities whose marker was ever compare-cleared
  )

  const Init: State :=
    State(map[], map[], map[], map[], {}, map[], {}, false, map[], {}, map[], map[], {})

  // ------------------------------------------------------------------ steps

  predicate Standing(s: State, p: Pid, pc: Pc) { p in s.procs && s.procs[p].pc == pc }

  function Go(s: State, p: Pid, pc: Pc): State
    requires p in s.procs
  {
    s.(procs := s.procs[p := s.procs[p].(pc := pc)])
  }

  function MarkerOf(s: State, id: Identity): Option<Pid> {
    if id in s.markers then Some(s.markers[id]) else None
  }

  /** `_unique_existing_job`: the visible jobs carrying this identity's comment. */
  predicate Sees(s: State, id: Identity, seen: Option<JobId>) {
    match seen
    case None => forall j | j in s.visible && j in s.jobs :: s.jobs[j] != id
    case Some(j) =>
      && j in s.visible && j in s.jobs && s.jobs[j] == id
      && (forall k | k in s.visible && k in s.jobs :: s.jobs[k] == id ==> k == j)
  }

  /** The live claims of one submit operation, as `matching_lifecycle_claims` lists them. */
  predicate Matching(s: State, id: Identity, qs: set<Pid>) {
    forall q | q in qs :: q in s.claims && q in s.procs && s.procs[q].id == id
  }

  function Known(o: Option<Pid>): set<Pid> {
    if o.None? then {} else {o.value}
  }

  function Outbox(s: State, id: Identity): set<Pid> {
    if id in s.outbox then s.outbox[id] else {}
  }

  // A call's own acts come in three kinds: those that only read and move on, those that
  // also release claims, and those that write. Each carries its nondeterministic choices.

  datatype Read =
    | ReadRecord
    | ReadRejection
    | ReadReplayOwner
    | Query(seen: Option<JobId>)
    | ReadMarker
    | Prepared
    | Return(outcome: Outcome)
    | QueryAgain(seen: Option<JobId>)
    | ReadBack(readable: bool)
    | QueryAccepted(seen: Option<JobId>)
    | FollowupsDone
    | FollowupsRejected   // a nested follow-up submission was rejected and its exception escapes
    | RaiseError          // any other exception; `sbatch` failures are caught where they happen
    | Crash               // also a `SubmissionUncertain`, which leaves every claim in place

  predicate CanRead(s: State, p: Pid, read: Read) {
    && p in s.procs
    && var pc, id := s.procs[p].pc, s.procs[p].id;
    match read
    case ReadRecord => pc == CheckRecord
    case ReadRejection => pc == CheckRejection
    case ReadReplayOwner => pc == ReplayRecord
    case Query(seen) => pc == QueryBefore && Sees(s, id, seen)
    case ReadMarker => pc.CheckMarker?
    case Prepared => pc == Prepare
    case Return(outcome) =>
      // only the `DEFINITELY_*` and `ACCEPTED` answers of the backend are promises
      && pc == AwaitOutcome && p in s.calls
      && (outcome.Accepted? ==> s.calls[p] == Ran(outcome.job))
      && (outcome.NotInvoked? || outcome.Rejected? ==> s.calls[p] == Dead)
    case QueryAgain(seen) => pc.QueryAfter? && Sees(s, id, seen)
    case ReadBack(_) => pc == ReadBackRejection
    case QueryAccepted(seen) => pc.Requery? && Sees(s, id, seen) && (seen.Some? ==> seen.value == pc.found)
    case FollowupsDone => pc.Followups?
    case FollowupsRejected => pc.Followups? && id.attempt > 1
    case RaiseError => pc != AwaitOutcome && pc != Stopped
    case Crash => true
  }

  function AfterRead(s: State, p: Pid, read: Read): Pc
    requires CanRead(s, p, read)
  {
    var pc, id := s.procs[p].pc, s.procs[p].id;
    match read
    case ReadRecord => if id in s.records then ReplayRecord else CheckRejection
    case ReadRejection => if id in s.rejections then RejectedExit else PublishIntent
    case ReadReplayOwner => ReplayRetire(MarkerOf(s, id))
    case Query(seen) => CheckMarker(seen)
    case ReadMarker =>
      if pc.seen.Some? then Requery(pc.seen.value, MarkerOf(s, id))
      else if id in s.markers then YieldToOwner
      else Prepare
    case Prepared => CreateMarker
    case Return(outcome) => if outcome.Accepted? then Requery(outcome.job, None) else QueryAfter(outcome)
    case QueryAgain(seen) =>
      if seen.Some? then Requery(seen.value, None)
      else if pc.outcome.NotInvoked? then ClearMarker
      else if pc.outcome.Rejected? then PublishRejection
      else Stopped
    case ReadBack(readable) =>
      if !readable then Stopped
      else if id !in s.rejections then ClearMarker
      else if s.rejections[id] == s.procs[p].contract then RejectedExit
      else Stopped
    case QueryAccepted(_) => PublishRecord(pc.found, pc.known)
    case FollowupsDone => Synchronize(pc.holders)
    case FollowupsRejected => RejectedExit
    case RaiseError => Raised
    case Crash => Stopped
  }

  datatype Release =
    | RetireReplay(losers: set<Pid>)   // a replay retires every holder the marker fenced out
    | Retire(losers: set<Pid>)         // `_release_preinvocation_losers`: best effort, so any subset
    | Yield
    | CheckLost
    | ReleaseHolder(holder: Pid)
    | HandleError(readable: bool)      // `_release_if_not_invocation_owner`
    | ExitRejected

  predicate CanRelease(s: State, p: Pid, release: Release) {
    && p in s.procs
    && var pc, id := s.procs[p].pc, s.procs[p].id;
    match release
    case RetireReplay(losers) =>
      && pc.ReplayRetire? && Matching(s, id, losers)
      && (pc.owner.Some? ==> pc.owner.value !in losers) && (pc.owner.None? ==> losers == {})
    case Retire(losers) => pc == RetireLosers && Matching(s, id, losers) && p !in losers
    case Yield => pc == YieldToOwner
    case CheckLost => pc == LostMarker
    case ReleaseHolder(holder) => pc.ReleaseSynced? && holder in pc.left
    case HandleError(_) => pc == Raised
    case ExitRejected => pc == RejectedExit
  }

  function AfterRelease(s: State, p: Pid, release: Release): Pc
    requires CanRelease(s, p, release)
  {
    var pc := s.procs[p].pc;
    match release
    case RetireReplay(_) => Enqueue({p} + Known(pc.owner))
    case Retire(_) => Invoke
    case ReleaseHolder(holder) => ReleaseSynced(pc.text, pc.left - {holder})
    case _ => Stopped
  }

  function Released(s: State, p: Pid, release: Release): set<Pid>
    requires CanRelease(s, p, release)
  {
    var owner := MarkerOf(s, s.procs[p].id);
    match release
    case RetireReplay(losers) => losers
    case Retire(losers) => losers
    case Yield => {p}
    case CheckLost => if owner == Some(p) then {} else {p}
    case ReleaseHolder(holder) => {holder}
    case HandleError(readable) => if readable && owner != Some(p) then {p} else {}
    case ExitRejected => {p}
  }

  // Writes are fenced against a transition; a response may be lost after the write.

  predicate WriteIntent(s: State, t: State, p: Pid) {
    && Standing(s, p, PublishIntent) && !s.transition
    && var id := s.procs[p].id;
    && (id in s.intents ==> s.intents[id] == s.procs[p].contract)
    && t == Go(s, p, QueryBefore).(intents := s.intents[id := s.procs[p].contract])
  }

  /** Create-once publication of the invocation marker; its response may be lost. */
  predicate WriteMarker(s: State, t: State, p: Pid, created: bool, reply: Reply) {
    && Standing(s, p, CreateMarker)
    && var id := s.procs[p].id;
    && (created ==> id !in s.markers && !s.transition)
    && (reply.Confirmed? ==> created)
    && var next := match reply case Confirmed => RetireLosers case Unconfirmed => LostMarker case Failed => Raised;
    && t == Go(s, p, next).(markers := if created then s.markers[id := p] else s.markers)
  }

  predicate CallSbatch(s: State, t: State, p: Pid) {
    && Standing(s, p, Invoke)
    && t == Go(s, p, AwaitOutcome).(calls := s.calls[p := InFlight])
  }

  /** Exact-bytes compare-and-clear of the caller's own marker. */
  predicate CompareClear(s: State, t: State, p: Pid, applied: bool, reply: Reply) {
    && Standing(s, p, ClearMarker)
    && var id := s.procs[p].id;
    && (applied ==> MarkerOf(s, id) == Some(p) && !s.transition)
    && (reply.Confirmed? ==> applied)
    && t == Go(s, p, if reply.Unconfirmed? then Stopped else Raised).(
         markers := if applied then s.markers - {id} else s.markers,
         cleared := if applied then s.cleared + {id} else s.cleared)
  }

  predicate WriteRejection(s: State, t: State, p: Pid, written: bool, ok: bool) {
    && Standing(s, p, PublishRejection)
    && var id := s.procs[p].id;
    && (written ==> id !in s.rejections && !s.transition)
    && (ok ==> written || (id in s.rejections && s.rejections[id] == s.procs[p].contract))
    && t == Go(s, p, if ok then RejectedExit else ReadBackRejection).(
         rejections := if written then s.rejections[id := s.procs[p].contract] else s.rejections)
  }

  predicate WriteRecord(s: State, t: State, p: Pid, written: bool, ok: bool) {
    && p in s.procs && s.procs[p].pc.PublishRecord?
    && var pc, id, record := s.procs[p].pc, s.procs[p].id, Record(s.procs[p].pc.job, s.procs[p].contract);
    && (written ==> id !in s.records && !s.transition)
    && (ok ==> written || (id in s.records && s.records[id] == record))
    && t == Go(s, p, if ok then Enqueue({p} + Known(pc.known)) else Raised).(
         records := if written then s.records[id := record] else s.records)
  }

  predicate EnqueueUpdate(s: State, t: State, p: Pid) {
    && p in s.procs && s.procs[p].pc.Enqueue? && !s.transition
    && var pc, id := s.procs[p].pc, s.procs[p].id;
    && t == Go(s, p, Followups(pc.holders)).(outbox := s.outbox[id := Outbox(s, id) + pc.holders])
  }

  predicate SyncRegistry(s: State, t: State, p: Pid, ok: bool) {
    && p in s.procs && s.procs[p].pc.Synchronize? && !s.transition
    && var id := s.procs[p].id;
    && var text := Outbox(s, id) + s.procs[p].pc.holders;
    && t == Go(s, p, if ok then ReleaseSynced(text, text) else Stopped).(
         outbox := s.outbox[id := text],
         synced := if ok then s.synced + {id} else s.synced)
  }

  predicate ClearOutbox(s: State, t: State, p: Pid) {
    && p in s.procs && s.procs[p].pc.ReleaseSynced? && s.procs[p].pc.left == {}
    && var id := s.procs[p].id;
    && t == Go(s, p, Stopped).(outbox := if Outbox(s, id) == s.procs[p].pc.text then s.outbox - {id} else s.outbox)
  }

  datatype Write =
    | Intent
    | Marker(created: bool, reply: Reply)
    | Sbatch
    | Clear(applied: bool, reply: Reply)
    | Rejection(written: bool, ok: bool)
    | Recording(written: bool, ok: bool)
    | Enqueueing
    | Syncing(synced: bool)
    | ClearingOutbox

  predicate Wrote(s: State, t: State, p: Pid, write: Write) {
    match write
    case Intent => WriteIntent(s, t, p)
    case Marker(created, reply) => WriteMarker(s, t, p, created, reply)
    case Sbatch => CallSbatch(s, t, p)
    case Clear(applied, reply) => CompareClear(s, t, p, applied, reply)
    case Rejection(written, ok) => WriteRejection(s, t, p, written, ok)
    case Recording(written, ok) => WriteRecord(s, t, p, written, ok)
    case Enqueueing => EnqueueUpdate(s, t, p)
    case Syncing(ok) => SyncRegistry(s, t, p, ok)
    case ClearingOutbox => ClearOutbox(s, t, p)
  }

  // Steps that no running call takes.

  /** `_acquire_lifecycle`: a fresh claim, refused once a transition has won. */
  predicate Start(s: State, t: State, p: Pid, id: Identity, contract: Contract) {
    && p !in s.procs && !s.transition
    && t == s.(procs := s.procs[p := Proc(id, contract, CheckRecord)], claims := s.claims + {p})
  }

  /** `reconcile_registry` picks up a pending outbox item that synchronizes. */
  predicate StartRepair(s: State, t: State, p: Pid, id: Identity) {
    && p !in s.procs && id in s.outbox
    && t == s.(procs := s.procs[p := Proc(id, 0, ReleaseSynced(s.outbox[id], s.outbox[id]))],
               synced := s.synced + {id})
  }

  /** `_release_rejected_invocation_owner`, from a replay or from reconciliation. */
  predicate RetireRejected(s: State, t: State, id: Identity, holders: set<Pid>) {
    && id in s.rejections && Matching(s, id, holders)
    && t == s.(claims := s.claims - holders)
  }

  predicate SchedulerAccepts(s: State, t: State, p: Pid, job: JobId) {
    && p in s.calls && s.calls[p] == InFlight && p in s.procs && job !in s.jobs
    && t == s.(jobs := s.jobs[job := s.procs[p].id], calls := s.calls[p := Ran(job)])
  }

  predicate SchedulerRefuses(s: State, t: State, p: Pid) {
    && p in s.calls && s.calls[p] == InFlight
    && t == s.(calls := s.calls[p := Dead])
  }

  predicate BecomesVisible(s: State, t: State, job: JobId) {
    && job in s.jobs
    && t == s.(visible := s.visible + {job})
  }

  /** No invocation marker is left without a record or a rejection. */
  predicate Resolved(s: State) {
    forall id | id in s.markers :: id in s.records || id in s.rejections
  }

  /**
    The destructive transition marks its start only when no claim is live and, in the same
    locked program, every invocation marker is matched by a record or a rejection.
  */
  predicate BeginTransition(s: State, t: State) {
    && s.claims == {} && Resolved(s)
    && t == s.(transition := true)
  }

  datatype World =
    | Starts(p: Pid, id: Identity, contract: Contract)
    | StartsRepair(p: Pid, id: Identity)
    | RetiresRejected(id: Identity, losers: set<Pid>)
    | Accepts(p: Pid, job: JobId)
    | Refuses(p: Pid)
    | Shows(job: JobId)
    | Transition

  predicate Happens(s: State, t: State, event: World) {
    match event
    case Starts(p, id, contract) => Start(s, t, p, id, contract)
    case StartsRepair(p, id) => StartRepair(s, t, p, id)
    case RetiresRejected(id, losers) => RetireRejected(s, t, id, losers)
    case Accepts(p, job) => SchedulerAccepts(s, t, p, job)
    case Refuses(p) => SchedulerRefuses(s, t, p)
    case Shows(job) => BecomesVisible(s, t, job)
    case Transition => BeginTransition(s, t)
  }

  datatype Step =
    | Reads(p: Pid, read: Read)
    | Releases(p: Pid, release: Release)
    | Writes(p: Pid, write: Write)
    | Outside(event: World)

  predicate Next(s: State, t: State, step: Step) {
    match step
    case Reads(p, read) => p in s.procs && CanRead(s, p, read) && t == Go(s, p, AfterRead(s, p, read))
    case Releases(p, release) =>
      p in s.procs && CanRelease(s, p, release) && t == Go(s, p, AfterRelease(s, p, release)).(claims := s.claims - Released(s, p, release))
    case Writes(p, write) => Wrote(s, t, p, write)
    case Outside(event) => Happens(s, t, event)
  }

  /** A run: its states, and the step taken between each two. */
  ghost predicate IsRun(states: seq<State>, steps: seq<Step>) {
    && |states| == |steps| + 1 && states[0] == Init
    && forall i | 0 <= i < |steps| :: Next(states[i], states[i + 1], steps[i])
  }
}
