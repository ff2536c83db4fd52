/**
  When a lifecycle claim may disappear. The claim that a live invocation marker
  names is what keeps a destructive transition away from an unfinished submission.
*/
module ClaimRetention {
  import opened Options
  import opened SubmissionProtocol
  import opened SubmissionSafety

  // --------------------------------------------------------- claim retention

  /** The claims a point of the program is about to hand to the outbox or to release. */
  function Holders(pc: Pc): set<Pid> {
    match pc
    case ReplayRetire(owner) => Known(owner)
    case Requery(_, known) => Known(known)
    case PublishRecord(_, known) => Known(known)
    case Enqueue(holders) => holders
    case Followups(holders) => holders
    case Synchronize(holders) => holders
    case ReleaseSynced(text, left) => text + left
    case _ => {}
  }

  ghost predicate OfIdentity(s: State, id: Identity, qs: set<Pid>) {
    forall q | q in qs :: q in s.procs && s.procs[q].id == id
  }

  /** Nobody ever queues or releases a claim of another operation. */
  ghost predicate HoldersInv(s: State) {
    && (forall p | p in s.procs :: OfIdentity(s, s.procs[p].id, Holders(s.procs[p].pc)))
    && (forall id | id in s.outbox :: OfIdentity(s, id, s.outbox[id]))
  }

  lemma HoldersMove(s: State, t: State, p: Pid)
    requires HoldersInv(s) && p in s.procs && p in t.procs && t.outbox == s.outbox
    requires t.procs == s.procs[p := t.procs[p]] && t.procs[p].id == s.procs[p].id
    requires OfIdentity(s, s.procs[p].id, Holders(t.procs[p].pc))
    ensures HoldersInv(t)
  {
    hide Holders;
  }

  lemma HoldersWrite(s: State, t: State, p: Pid)
    requires HoldersInv(s) && p in s.procs && p in t.procs
    requires t.procs == s.procs[p := t.procs[p]] && t.procs[p].id == s.procs[p].id
    requires OfIdentity(s, s.procs[p].id, Holders(t.procs[p].pc))
    requires forall id | id in t.outbox :: OfIdentity(s, id, t.outbox[id])
    ensures HoldersInv(t)
  {
    hide Holders;
  }

  lemma MarkerOwner(s: State, id: Identity)
    requires JobSide(s)
    ensures OfIdentity(s, id, Known(MarkerOf(s, id)))
  {
  }

  lemma PcHolders(s: State, p: Pid)
    requires HoldersInv(s) && p in s.procs
    ensures OfIdentity(s, s.procs[p].id, Holders(s.procs[p].pc))
  {
  }

  lemma OutboxHolders(s: State)
    requires HoldersInv(s)
    ensures forall id | id in s.outbox :: OfIdentity(s, id, s.outbox[id])
  {
  }

  lemma ReadHolders(s: State, p: Pid, read: Read)
    requires JobSide(s) && HoldersInv(s) && CanRead(s, p, read)
    ensures OfIdentity(s, s.procs[p].id, Holders(AfterRead(s, p, read)))
  {
    hide JobSide, HoldersInv, OfIdentity;
    PcHolders(s, p);
    MarkerOwner(s, s.procs[p].id);
    NoHolders(s, s.procs[p].id);
  }

  lemma NoHolders(s: State, id: Identity)
    ensures OfIdentity(s, id, {})
  {
  }

  lemma ReleaseHolders(s: State, p: Pid, release: Release)
    requires HoldersInv(s) && CanRelease(s, p, release)
    ensures OfIdentity(s, s.procs[p].id, Holders(AfterRelease(s, p, release)))
  {
    hide HoldersInv;
    PcHolders(s, p);
  }

  lemma WriteHolders(s: State, t: State, p: Pid, write: Write)
    requires HoldersInv(s) && Wrote(s, t, p, write)
    ensures HoldersInv(t)
  {
    hide HoldersInv;
    if write.Enqueueing? || write.Syncing? || write.ClearingOutbox? {
      OutboxWriteHolders(s, t, p, write);
    } else {
      PcHolders(s, p);
      HoldersMove(s, t, p);
    }
  }

  lemma OutboxWriteHolders(s: State, t: State, p: Pid, write: Write)
    requires HoldersInv(s) && Wrote(s, t, p, write) && (write.Enqueueing? || write.Syncing? || write.ClearingOutbox?)
    ensures HoldersInv(t)
  {
    hide HoldersInv, WriteIntent, WriteMarker, CallSbatch, CompareClear, WriteRejection, WriteRecord;
    PcHolders(s, p);
    OutboxHolders(s);
    HoldersWrite(s, t, p);
  }

  lemma EventHolders(s: State, t: State, event: World)
    requires HoldersInv(s) && Happens(s, t, event)
    ensures HoldersInv(t)
  {
    match event
    case Starts(p, id, contract) => NewcomerHolds(s, t, p);
    case StartsRepair(p, id) => NewcomerHolds(s, t, p);
    case _ =>
  }

  lemma NewcomerHolds(s: State, t: State, p: Pid)
    requires HoldersInv(s) && p !in s.procs && p in t.procs && t.procs == s.procs[p := t.procs[p]] && t.outbox == s.outbox
    requires OfIdentity(s, t.procs[p].id, Holders(t.procs[p].pc))
    ensures HoldersInv(t)
  {
    hide Holders;
  }

  lemma HoldersNext(s: State, t: State, step: Step)
    requires Inv(s) && HoldersInv(s) && Next(s, t, step)
    ensures HoldersInv(t)
  {
    hide JobSide, FileSide, ProcsInv, HoldersInv, Holders, Wrote, Happens, CanRead, AfterRead, CanRelease, AfterRelease, Released;
    match step
    case Reads(p, read) => ReadHolders(s, p, read); HoldersMove(s, t, p);
    case Releases(p, release) => ReleaseHolders(s, p, release); HoldersMove(s, t, p);
    case Writes(p, write) => WriteHolders(s, t, p, write);
    case Outside(event) => EventHolders(s, t, event);
  }

  /** The identity's outcome is durable and its registry entry is in step with it. */
  predicate Ended(s: State, id: Identity) {
    id in s.rejections || (id in s.records && id in s.synced)
  }

  /** The claim a live marker names is held until the outcome is durable and synchronized. */
  predicate Retained(s: State, id: Identity) {
    id in s.markers ==> s.markers[id] in s.claims || Ended(s, id)
  }

  /** A call wins the marker although its own claim was retired earlier. */
  predicate LateWinner(s: State, step: Step, id: Identity) {
    && step.Writes? && step.write.Marker? && step.write.created
    && step.p in s.procs && s.procs[step.p].id == id && step.p !in s.claims
  }

  /** The owner leaves with a follow-up's rejection before its own record is synchronized. */
  predicate Escapes(s: State, step: Step, id: Identity) {
    && step.Releases? && step.release.ExitRejected?
    && MarkerOf(s, id) == Some(step.p) && !Ended(s, id)
  }

  /** Whoever a step makes release a claim, it is a claim of the step's own identity. */
  lemma ReleasedOwn(s: State, p: Pid, release: Release)
    requires HoldersInv(s) && CanRelease(s, p, release)
    ensures OfIdentity(s, s.procs[p].id, Released(s, p, release))
  {
    hide HoldersInv;
    PcHolders(s, p);
  }

  lemma MarkerNamesOwn(s: State, id: Identity)
    requires JobSide(s) && id in s.markers
    ensures s.markers[id] in s.procs && s.procs[s.markers[id]].id == id
  {
  }

  lemma ReleaseKeepsClaim(s: State, t: State, p: Pid, release: Release, id: Identity)
    requires Inv(s) && HoldersInv(s) && Retained(s, id) && Next(s, t, Releases(p, release))
    ensures Retained(t, id) <==> !Escapes(s, Releases(p, release), id)
  {
    hide JobSide, FileSide, ProcsInv, HoldersInv, Holders;
    ProcOf(s, p);
    ReleasedOwn(s, p, release);
    if id in s.markers { MarkerNamesOwn(s, id); }
  }

  lemma WriteKeepsClaim(s: State, t: State, p: Pid, write: Write, id: Identity)
    requires Inv(s) && Retained(s, id) && Wrote(s, t, p, write)
    ensures Retained(t, id) <==> !LateWinner(s, Writes(p, write), id)
  {
    hide JobSide, FileSide, ProcsInv;
    if id !in s.markers { UnmarkedUnused(s, id); }
  }

  lemma EventKeepsClaim(s: State, t: State, event: World, id: Identity)
    requires Inv(s) && Retained(s, id) && Happens(s, t, event)
    ensures Retained(t, id)
  {
    hide JobSide, FileSide, ProcsInv;
    if id in s.markers { MarkerNamesOwn(s, id); }
  }

  /** A step loses the claim of an identity exactly when a late winner or an escape takes it. */
  lemma RetainedStep(s: State, t: State, step: Step, id: Identity)
    requires Inv(s) && HoldersInv(s) && Retained(s, id) && Next(s, t, step)
    ensures Retained(t, id) <==> !LateWinner(s, step, id) && !Escapes(s, step, id)
  {
    hide Inv, HoldersInv, Wrote, Happens, CanRead, AfterRead, CanRelease, AfterRelease, Released;
    match step
    case Reads(p, read) =>
    case Releases(p, release) => ReleaseKeepsClaim(s, t, p, release, id);
    case Writes(p, write) => WriteKeepsClaim(s, t, p, write, id);
    case Outside(event) => EventKeepsClaim(s, t, event, id);
  }

  ghost predicate Sound(s: State) { Inv(s) && HoldersInv(s) && Fenced(s) && Settled(s) }

  predicate Settled(s: State) { s.transition ==> s.claims == {} && Resolved(s) }

  /** Points of the program before the marker is tried. */
  predicate Untried(pc: Pc) {
    || pc.CheckRecord? || pc.CheckRejection? || pc.ReplayRecord? || pc.ReplayRetire? || pc.PublishIntent?
    || pc.QueryBefore? || pc.CheckMarker? || pc.YieldToOwner? || pc.Prepare? || pc.CreateMarker?
  }

  /**
    A call that has not yet tried the marker but already lost its claim finds the marker
    taken, unless that marker has been compare-cleared.
  */
  ghost predicate FencedCall(s: State, p: Pid)
    requires p in s.procs
  {
    Untried(s.procs[p].pc) && p !in s.claims ==> s.procs[p].id in s.markers || s.procs[p].id in s.cleared
  }

  ghost predicate Fenced(s: State) {
    forall p | p in s.procs :: FencedCall(s, p)
  }

  /** Recorded and rejected identities keep their marker. */
  lemma EndedIsMarked(s: State, id: Identity)
    requires JobSide(s) && FileSide(s) && (id in s.records || id in s.rejections)
    ensures id in s.markers
  {
    if id !in s.markers { UnmarkedUnused(s, id); }
  }

  lemma NotBeforeAgain(s: State, p: Pid, read: Read)
    requires CanRead(s, p, read)
    ensures Untried(AfterRead(s, p, read)) ==> Untried(s.procs[p].pc)
  {
  }

  lemma ReadFenced(s: State, t: State, p: Pid, read: Read)
    requires Fenced(s) && Next(s, t, Reads(p, read))
    ensures Fenced(t)
  {
    hide CanRead, AfterRead, Untried;
    NotBeforeAgain(s, p, read);
    forall q | q in t.procs ensures FencedCall(t, q) { assert FencedCall(s, q); }
  }

  /** Whoever is released before trying the marker belongs to an identity that has one. */
  lemma ReleasedIsFenced(s: State, p: Pid, release: Release)
    requires Inv(s) && CanRelease(s, p, release)
    ensures !Untried(AfterRelease(s, p, release))
    ensures forall q | q in Released(s, p, release) && q != p :: s.procs[p].id in s.markers
  {
    hide JobSide, FileSide, ProcsInv;
    ProcOf(s, p);
    if s.procs[p].id in s.records { EndedIsMarked(s, s.procs[p].id); }
  }

  lemma ReleaseFenced(s: State, t: State, p: Pid, release: Release)
    requires Inv(s) && HoldersInv(s) && Fenced(s) && Next(s, t, Releases(p, release))
    ensures Fenced(t)
  {
    hide Inv, HoldersInv, CanRelease, AfterRelease, Released, Untried;
    ReleasedIsFenced(s, p, release);
    ReleasedOwn(s, p, release);
    forall q | q in t.procs ensures FencedCall(t, q) { assert FencedCall(s, q); }
  }

  lemma WriteFenced(s: State, t: State, p: Pid, write: Write)
    requires Fenced(s) && Wrote(s, t, p, write)
    ensures Fenced(t)
  {
    WriteFrame(s, t, p, write);
    hide Wrote, Untried;
    forall q | q in t.procs ensures FencedCall(t, q) { assert FencedCall(s, q); }
  }

  lemma WriteFrame(s: State, t: State, p: Pid, write: Write)
    requires Wrote(s, t, p, write)
    ensures p in s.procs && p in t.procs && t.procs == s.procs[p := t.procs[p]] && t.procs[p].id == s.procs[p].id
    ensures t.claims == s.claims && (Settled(s) ==> Settled(t)) && (forall id | id in s.cleared :: id in t.cleared)
    ensures forall id | id in s.markers :: id in t.markers || id in t.cleared
    ensures Untried(t.procs[p].pc) ==> Untried(s.procs[p].pc)
  {
    hide Untried, Settled;
    WriteMoves(s, t, p, write);
    WriteSettles(s, t, p, write);
  }

  lemma WriteMoves(s: State, t: State, p: Pid, write: Write)
    requires Wrote(s, t, p, write)
    ensures p in s.procs && p in t.procs && (Untried(t.procs[p].pc) ==> Untried(s.procs[p].pc))
  {
  }

  lemma WriteSettles(s: State, t: State, p: Pid, write: Write)
    requires Wrote(s, t, p, write)
    ensures Settled(s) ==> Settled(t)
  {
  }

  lemma EventFenced(s: State, t: State, event: World)
    requires Inv(s) && Fenced(s) && Happens(s, t, event)
    ensures Fenced(t)
  {
    hide JobSide, FileSide, ProcsInv;
    if event.RetiresRejected? { EndedIsMarked(s, event.id); }
    forall q | q in t.procs ensures FencedCall(t, q) { if q in s.procs { assert FencedCall(s, q); } }
  }

  lemma SoundNext(s: State, t: State, step: Step)
    requires Sound(s) && Next(s, t, step)
    ensures Sound(t) && (forall id | id in s.cleared :: id in t.cleared)
  {
    hide Inv, HoldersInv, Fenced, Wrote, Happens, CanRead, AfterRead, CanRelease, AfterRelease, Released;
    InvNext(s, t, step);
    HoldersNext(s, t, step);
    match step
    case Reads(p, read) => ReadFenced(s, t, p, read);
    case Releases(p, release) => ReleaseFenced(s, t, p, release);
    case Writes(p, write) => WriteFenced(s, t, p, write); WriteFrame(s, t, p, write);
    case Outside(event) => EventFenced(s, t, event); EventFrame(s, t, event);
  }

  lemma EventFrame(s: State, t: State, event: World)
    requires Settled(s) && Happens(s, t, event)
    ensures Settled(t) && t.cleared == s.cleared
  {
  }

  lemma {:induction false} SoundRun(states: seq<State>, steps: seq<Step>)
    requires IsRun(states, steps)
    ensures forall i | 0 <= i < |states| :: Sound(states[i])
    ensures forall i, id | 0 <= i < |states| && id in states[i].cleared :: id in states[|steps|].cleared
    decreases |steps|
  {
    if steps == [] {
      assert Sound(Init);
    } else {
      hide Sound, Next;
      var n := |steps| - 1;
      assert states[..n + 1][n] == states[n];
      SoundRun(states[..n + 1], steps[..n]);
      SoundNext(states[n], states[n + 1], steps[n]);
      forall i | 0 <= i < |states| ensures Sound(states[i]) && forall id | id in states[i].cleared :: id in states[n + 1].cleared {
        if i <= n { assert states[..n + 1][i] == states[i]; }
      }
    }
  }

  // ---------------------------------------------------------------- theorems

  /**
    Over a whole run the claim named by an identity's marker is always retained if and
    only if no step of the run is a late winner or an escape for that identity.
  */
  lemma ClaimRetained(states: seq<State>, steps: seq<Step>, id: Identity)
    requires IsRun(states, steps)
    ensures (forall i | 0 <= i < |states| :: Retained(states[i], id))
        <==> (forall i | 0 <= i < |steps| :: !LateWinner(states[i], steps[i], id) && !Escapes(states[i], steps[i], id))
  {
    hide IsRun, LateWinner, Escapes, Retained;
    assert |states| == |steps| + 1 by { RunLength(states, steps); }
    if forall i | 0 <= i < |states| :: Retained(states[i], id) {
      forall i | 0 <= i < |steps| ensures !LateWinner(states[i], steps[i], id) && !Escapes(states[i], steps[i], id) {
        RetainedAt(states, steps, id, i);
      }
    } else if forall i | 0 <= i < |steps| :: !LateWinner(states[i], steps[i], id) && !Escapes(states[i], steps[i], id) {
      forall i | 0 <= i < |states| ensures Retained(states[i], id) { RetainedUpTo(states, steps, id, i); }
    }
  }

  lemma RunLength(states: seq<State>, steps: seq<Step>)
    requires IsRun(states, steps)
    ensures |states| == |steps| + 1
  {
  }

  lemma RetainedAt(states: seq<State>, steps: seq<Step>, id: Identity, i: nat)
    requires IsRun(states, steps) && i < |steps| && Retained(states[i], id)
    ensures Retained(states[i + 1], id) <==> !LateWinner(states[i], steps[i], id) && !Escapes(states[i], steps[i], id)
  {
    hide Next, Inv, HoldersInv, Fenced, LateWinner, Escapes, Retained;
    SoundRun(states, steps);
    assert Sound(states[i]);
    RetainedStep(states[i], states[i + 1], steps[i], id);
  }

  lemma {:induction false} RetainedUpTo(states: seq<State>, steps: seq<Step>, id: Identity, n: nat)
    requires IsRun(states, steps) && n < |states|
    requires forall i | 0 <= i < n :: !LateWinner(states[i], steps[i], id) && !Escapes(states[i], steps[i], id)
    ensures Retained(states[n], id)
  {
    hide LateWinner, Escapes, Next;
    if n > 0 {
      RetainedUpTo(states, steps, id, n - 1);
      RetainedAt(states, steps, id, n - 1);
    }
  }

  /** A late winner needs a marker that was compare-cleared earlier in the run. */
  lemma LateWinnerNeedsClear(states: seq<State>, steps: seq<Step>, id: Identity, i: nat)
    requires IsRun(states, steps) && i < |steps| && LateWinner(states[i], steps[i], id)
    ensures id in states[i].cleared && id in states[|steps|].cleared
  {
    SoundRun(states, steps);
    hide Inv, HoldersInv, Fenced;
    assert Sound(states[i]);
    assert Next(states[i], states[i + 1], steps[i]);
    FencedWinner(states[i], steps[i].p);
  }

  lemma FencedWinner(s: State, p: Pid)
    requires Fenced(s) && Standing(s, p, CreateMarker) && p !in s.claims
    ensures s.procs[p].id in s.markers || s.procs[p].id in s.cleared
  {
    assert FencedCall(s, p);
  }

  /** On runs that never compare-clear this identity's marker only an escape loses the claim. */
  lemma ClaimRetainedUncleared(states: seq<State>, steps: seq<Step>, id: Identity)
    requires IsRun(states, steps) && id !in states[|steps|].cleared
    ensures (forall i | 0 <= i < |states| :: Retained(states[i], id))
        <==> (forall i | 0 <= i < |steps| :: !Escapes(states[i], steps[i], id))
  {
    ClaimRetained(states, steps, id);
    hide IsRun, LateWinner, Escapes, Retained;
    forall i | 0 <= i < |steps| ensures !LateWinner(states[i], steps[i], id) {
      if LateWinner(states[i], steps[i], id) { LateWinnerNeedsClear(states, steps, id, i); }
    }
  }

  /** What still stands between a marker and a transition after an escape. */
  predicate Guarded(s: State, id: Identity) {
    id in s.markers ==> s.markers[id] in s.claims || id in s.rejections || id in s.records
  }

  lemma ReleaseKeepsGuard(s: State, t: State, p: Pid, release: Release, id: Identity)
    requires Inv(s) && HoldersInv(s) && Guarded(s, id) && Next(s, t, Releases(p, release))
    ensures Guarded(t, id)
  {
    hide JobSide, FileSide, ProcsInv, HoldersInv, Holders;
    ProcOf(s, p);
    ReleasedOwn(s, p, release);
    if id in s.markers { MarkerNamesOwn(s, id); }
  }

  lemma WriteKeepsGuard(s: State, t: State, p: Pid, write: Write, id: Identity)
    requires Inv(s) && Guarded(s, id) && Wrote(s, t, p, write)
    ensures Guarded(t, id) <==> !LateWinner(s, Writes(p, write), id)
  {
    hide JobSide, FileSide, ProcsInv;
    if id !in s.markers { UnmarkedUnused(s, id); }
  }

  lemma EventKeepsGuard(s: State, t: State, event: World, id: Identity)
    requires Inv(s) && Guarded(s, id) && Happens(s, t, event)
    ensures Guarded(t, id)
  {
    hide JobSide, FileSide, ProcsInv;
    if id in s.markers { MarkerNamesOwn(s, id); }
  }

  lemma GuardedStep(s: State, t: State, step: Step, id: Identity)
    requires Inv(s) && HoldersInv(s) && Guarded(s, id) && Next(s, t, step)
    ensures Guarded(t, id) <==> !LateWinner(s, step, id)
  {
    hide Inv, HoldersInv, Wrote, Happens, CanRead, AfterRead, CanRelease, AfterRelease, Released;
    match step
    case Reads(p, read) =>
    case Releases(p, release) => ReleaseKeepsGuard(s, t, p, release, id);
    case Writes(p, write) => WriteKeepsGuard(s, t, p, write, id);
    case Outside(event) => EventKeepsGuard(s, t, event, id);
  }

  lemma {:induction false} GuardedUpTo(states: seq<State>, steps: seq<Step>, id: Identity, n: nat)
    requires IsRun(states, steps) && n < |states|
    requires forall i | 0 <= i < n :: !LateWinner(states[i], steps[i], id)
    ensures Guarded(states[n], id)
  {
    hide LateWinner, Next, Inv, HoldersInv, Fenced;
    if n > 0 {
      GuardedUpTo(states, steps, id, n - 1);
      SoundRun(states, steps);
      assert Sound(states[n - 1]);
      GuardedStep(states[n - 1], states[n], steps[n - 1], id);
    }
  }

  /**
    Without late winners the absence of claims alone already means that every invocation
    has a durable outcome, so the transition's second scan never refuses.
  */
  lemma NoClaimsMeansResolved(states: seq<State>, steps: seq<Step>, n: nat)
    requires IsRun(states, steps) && n < |states| && states[n].claims == {}
    requires forall i, id | 0 <= i < |steps| :: !LateWinner(states[i], steps[i], id)
    ensures Resolved(states[n])
  {
    RunLength(states, steps);
    hide IsRun, LateWinner;
    forall id | id in states[n].markers ensures id in states[n].records || id in states[n].rejections {
      GuardedUpTo(states, steps, id, n);
    }
  }

  /**
    A destructive transition never overtakes a submission: once it has begun no `sbatch` is
    in flight or about to be issued, and the records name every job that was ever accepted.
  */
  lemma TransitionOvertakesNothing(states: seq<State>, steps: seq<Step>, n: nat)
    requires IsRun(states, steps) && n < |states| && states[n].transition
    ensures var s := states[n];
      && s.claims == {}
      && (forall p | p in s.calls :: s.calls[p] != InFlight)
      && (forall p | p in s.procs :: s.procs[p].pc != Invoke && s.procs[p].pc != RetireLosers)
      && (forall j | j in s.jobs :: s.jobs[j] in s.records && s.records[s.jobs[j]].job == j)
  {
    hide IsRun, Inv, HoldersInv, Fenced;
    SoundRun(states, steps);
    assert Sound(states[n]);
    Overtaken(states[n]);
  }

  lemma Overtaken(s: State)
    requires Inv(s) && Resolved(s)
    ensures (forall p | p in s.calls :: s.calls[p] != InFlight)
      && (forall p | p in s.procs :: s.procs[p].pc != Invoke && s.procs[p].pc != RetireLosers)
      && (forall j | j in s.jobs :: s.jobs[j] in s.records && s.records[s.jobs[j]].job == j)
  {
    hide JobSide, FileSide, ProcsInv;
    forall p | p in s.calls ensures s.calls[p] != InFlight {
      CallOf(s, p);
      if s.procs[p].id in s.markers { Outcomes(s, s.procs[p].id); }
    }
    forall p | p in s.procs ensures s.procs[p].pc != Invoke && s.procs[p].pc != RetireLosers {
      ProcOf(s, p);
      if s.procs[p].id in s.markers { Outcomes(s, s.procs[p].id); }
    }
    forall j | j in s.jobs ensures s.jobs[j] in s.records && s.records[s.jobs[j]].job == j {
      JobOf(s, j);
      Outcomes(s, s.jobs[j]);
    }
  }

  lemma JobOf(s: State, j: JobId)
    requires JobSide(s) && j in s.jobs
    ensures JobInv(s, j)
  {
  }

  /** A durable outcome settles the one call the marker names. */
  lemma Outcomes(s: State, id: Identity)
    requires JobSide(s) && FileSide(s) && id in s.markers
    ensures id in s.records ==> s.markers[id] in s.calls && s.calls[s.markers[id]] == Ran(s.records[id].job)
    ensures id in s.rejections ==> s.markers[id] in s.calls && s.calls[s.markers[id]] == Dead
  {
    assert id in s.records ==> RecordInv(s, id) && JobInv(s, s.records[id].job);
    assert id in s.rejections ==> RejectionInv(s, id);
  }

  // ------------------------------------------------ the two ways to lose a claim

  ghost predicate Reachable(s: State) {
    exists states, steps :: IsRun(states, steps) && states[|steps|] == s
  }

  lemma Reach(s: State, t: State, step: Step)
    requires Reachable(s) && Next(s, t, step)
    ensures Reachable(t)
  {
    var states, steps :| IsRun(states, steps) && states[|steps|] == s;
    hide Next;
    assert IsRun(states + [t], steps + [step]);
  }

  lemma ReachRead(s: State, p: Pid, read: Read, pc: Pc)
    requires Reachable(s) && p in s.procs && CanRead(s, p, read) && AfterRead(s, p, read) == pc
    ensures Reachable(Go(s, p, pc))
  {
    hide Reachable, CanRead, AfterRead;
    Reach(s, Go(s, p, pc), Reads(p, read));
  }

  lemma ReachRelease(s: State, p: Pid, release: Release, t: State)
    requires Reachable(s) && p in s.procs && CanRelease(s, p, release)
    requires t == Go(s, p, AfterRelease(s, p, release)).(claims := s.claims - Released(s, p, release))
    ensures Reachable(t)
  {
    hide Reachable, CanRelease, AfterRelease, Released;
    Reach(s, t, Releases(p, release));
  }

  lemma ReachWrite(s: State, p: Pid, write: Write, t: State)
    requires Reachable(s) && Wrote(s, t, p, write)
    ensures Reachable(t)
  {
    hide Reachable, Wrote;
    Reach(s, t, Writes(p, write));
  }

  lemma ReachEvent(s: State, event: World, t: State)
    requires Reachable(s) && Happens(s, t, event)
    ensures Reachable(t)
  {
    hide Reachable, Happens;
    Reach(s, t, Outside(event));
  }

  /** A fresh call of an unused identity walks up to the creation of its marker. */
  lemma Approach(s: State, p: Pid, id: Identity, c: Contract) returns (t: State)
    requires Reachable(s) && p !in s.procs && !s.transition && s.visible == {}
    requires id !in s.records && id !in s.rejections && id !in s.markers && (id in s.intents ==> s.intents[id] == c)
    ensures Reachable(t)
    ensures t == s.(procs := s.procs[p := Proc(id, c, CreateMarker)], claims := s.claims + {p}, intents := s.intents[id := c])
  {
    hide Reachable, CanRead, AfterRead, Wrote, Happens;
    t := Arrive(s, p, id, c);
    t := FindsNothing(t, p);
  }

  lemma FindsNothing(s: State, p: Pid) returns (t: State)
    requires Reachable(s) && Standing(s, p, QueryBefore) && s.procs[p].id !in s.markers && s.visible == {}
    ensures Reachable(t) && t == Go(s, p, CreateMarker)
  {
    hide Reachable;
    ReachRead(s, p, Query(None), CheckMarker(None));
    t := Go(s, p, CheckMarker(None));
    ReachRead(t, p, ReadMarker, Prepare);
    t := Go(t, p, Prepare);
    ReachRead(t, p, Prepared, CreateMarker);
    t := Go(t, p, CreateMarker);
  }

  lemma Arrive(s: State, p: Pid, id: Identity, c: Contract) returns (t: State)
    requires Reachable(s) && p !in s.procs && !s.transition
    requires id !in s.records && id !in s.rejections && (id in s.intents ==> s.intents[id] == c)
    ensures Reachable(t)
    ensures t == s.(procs := s.procs[p := Proc(id, c, QueryBefore)], claims := s.claims + {p}, intents := s.intents[id := c])
  {
    hide Reachable;
    var a := s.(procs := s.procs[p := Proc(id, c, CheckRecord)], claims := s.claims + {p});
    ReachEvent(s, Starts(p, id, c), a);
    ReachRead(a, p, ReadRecord, CheckRejection);
    ReachRead(Go(a, p, CheckRejection), p, ReadRejection, PublishIntent);
    a := Go(Go(a, p, CheckRejection), p, PublishIntent);
    t := Go(a, p, QueryBefore).(intents := s.intents[id := c]);
    ReachWrite(a, p, Intent, t);
  }

  /** The winner of the marker retires a chosen set of losers and reaches `sbatch`. */
  lemma Invokes(s: State, p: Pid, losers: set<Pid>) returns (t: State)
    requires Reachable(s) && Standing(s, p, CreateMarker) && s.procs[p].id !in s.markers && !s.transition
    requires Matching(s, s.procs[p].id, losers) && p !in losers
    ensures Reachable(t)
    ensures t == Go(s, p, AwaitOutcome).(markers := s.markers[s.procs[p].id := p], claims := s.claims - losers, calls := s.calls[p := InFlight])
  {
    hide Reachable;
    t := Go(s, p, RetireLosers).(markers := s.markers[s.procs[p].id := p]);
    ReachWrite(s, p, Marker(true, Confirmed), t);
    t := CallsSbatch(t, p, losers);
  }

  lemma CallsSbatch(s: State, p: Pid, losers: set<Pid>) returns (t: State)
    requires Reachable(s) && Standing(s, p, RetireLosers) && Matching(s, s.procs[p].id, losers) && p !in losers
    ensures Reachable(t)
    ensures t == Go(s, p, AwaitOutcome).(claims := s.claims - losers, calls := s.calls[p := InFlight])
  {
    hide Reachable;
    var b := Go(s, p, Invoke).(claims := s.claims - losers);
    ReachRelease(s, p, Retire(losers), b);
    t := Go(b, p, AwaitOutcome).(calls := s.calls[p := InFlight]);
    ReachWrite(b, p, Sbatch, t);
  }

  /** The owner learns that its `sbatch` never ran, clears its marker and gives up its claim. */
  lemma Withdraws(s: State, p: Pid) returns (t: State)
    requires Reachable(s) && Standing(s, p, AwaitOutcome) && p in s.calls && s.calls[p] == InFlight
    requires MarkerOf(s, s.procs[p].id) == Some(p) && !s.transition && s.visible == {}
    ensures Reachable(t)
    ensures t == Go(s, p, Stopped).(calls := s.calls[p := Dead], claims := s.claims - {p},
                                     markers := s.markers - {s.procs[p].id}, cleared := s.cleared + {s.procs[p].id})
  {
    hide Reachable;
    var a := s.(calls := s.calls[p := Dead]);
    ReachEvent(s, Refuses(p), a);
    ReachRead(a, p, Return(NotInvoked), QueryAfter(NotInvoked));
    var b := Go(a, p, QueryAfter(NotInvoked));
    ReachRead(b, p, QueryAgain(None), ClearMarker);
    t := Clears(Go(b, p, ClearMarker), p);
  }

  lemma Clears(s: State, p: Pid) returns (t: State)
    requires Reachable(s) && Standing(s, p, ClearMarker) && MarkerOf(s, s.procs[p].id) == Some(p) && !s.transition
    ensures Reachable(t)
    ensures t == Go(s, p, Stopped).(claims := s.claims - {p}, markers := s.markers - {s.procs[p].id}, cleared := s.cleared + {s.procs[p].id})
  {
    hide Reachable;
    var b := Go(s, p, Raised).(markers := s.markers - {s.procs[p].id}, cleared := s.cleared + {s.procs[p].id});
    ReachWrite(s, p, Clear(true, Confirmed), b);
    t := Go(b, p, Stopped).(claims := s.claims - {p});
    ReachRelease(b, p, HandleError(true), t);
  }

  /**
    The late winner is real: two calls race, the first retires the second's claim, is told its
    `sbatch` never ran and clears the marker; the second then wins the marker with no claim left.
    No claim is live although an `sbatch` is in flight.
  */
  lemma LateWinnerHappens(id: Identity) returns (s: State)
    ensures Reachable(s) && !Retained(s, id) && !Resolved(s)
    ensures s.claims == {} && 2 in s.calls && s.calls[2] == InFlight
  {
    hide Reachable;
    s := Race(id);
    s := Invokes(s, 1, {2});
    s := Withdraws(s, 1);
    s := Invokes(s, 2, {});
  }

  lemma Race(id: Identity) returns (s: State)
    ensures Reachable(s)
    ensures s == Init.(procs := map[1 := Proc(id, 7, CreateMarker), 2 := Proc(id, 7, CreateMarker)], claims := {1, 2}, intents := map[id := 7])
  {
    hide Reachable;
    Starting();
    s := Approach(Init, 2, id, 7);
    s := Approach(s, 1, id, 7);
  }

  lemma Starting()
    ensures Reachable(Init)
  {
    assert IsRun([Init], []);
  }

  /** The scheduler accepts an attempt and the call learns its job. */
  lemma Accepts(s: State, p: Pid, job: JobId) returns (t: State)
    requires Reachable(s) && Standing(s, p, AwaitOutcome) && p in s.calls && s.calls[p] == InFlight
    requires s.visible == {} && job !in s.jobs
    ensures Reachable(t)
    ensures t == Go(s, p, PublishRecord(job, None)).(calls := s.calls[p := Ran(job)], jobs := s.jobs[job := s.procs[p].id])
  {
    hide Reachable;
    t := s.(calls := s.calls[p := Ran(job)], jobs := s.jobs[job := s.procs[p].id]);
    ReachEvent(s, World.Accepts(p, job), t);
    t := Learns(t, p, job);
  }

  lemma Learns(s: State, p: Pid, job: JobId) returns (t: State)
    requires Reachable(s) && Standing(s, p, AwaitOutcome) && p in s.calls && s.calls[p] == Ran(job) && s.visible == {}
    ensures Reachable(t) && t == Go(s, p, PublishRecord(job, None))
  {
    hide Reachable;
    ReachRead(s, p, Return(Accepted(job)), Requery(job, None));
    t := Go(s, p, Requery(job, None));
    ReachRead(t, p, QueryAccepted(None), PublishRecord(job, None));
    t := Go(t, p, PublishRecord(job, None));
  }

  /** An accepted attempt publishes its record and queues its registry update. */
  lemma Publishes(s: State, p: Pid, job: JobId) returns (t: State)
    requires Reachable(s) && Standing(s, p, PublishRecord(job, None)) && s.procs[p].id !in s.records && s.procs[p].id !in s.outbox && !s.transition
    ensures Reachable(t)
    ensures t == Go(s, p, Followups({p})).(records := s.records[s.procs[p].id := Record(job, s.procs[p].contract)], outbox := s.outbox[s.procs[p].id := {p}])
  {
    hide Reachable;
    assert {p} + Known(None) == {p};
    var b := Go(s, p, Enqueue({p})).(records := s.records[s.procs[p].id := Record(job, s.procs[p].contract)]);
    ReachWrite(s, p, Recording(true, true), b);
    assert Outbox(s, s.procs[p].id) + {p} == {p};
    t := Go(b, p, Followups({p})).(outbox := s.outbox[s.procs[p].id := {p}]);
    ReachWrite(b, p, Enqueueing, t);
  }

  lemma Leaves(s: State, p: Pid) returns (t: State)
    requires Reachable(s) && Standing(s, p, Followups({p})) && s.procs[p].id.attempt > 1
    ensures Reachable(t) && t == Go(s, p, Stopped).(claims := s.claims - {p})
  {
    hide Reachable;
    ReachRead(s, p, FollowupsRejected, RejectedExit);
    t := Go(s, p, RejectedExit);
    var e := Go(t, p, Stopped).(claims := t.claims - {p});
    ReachRelease(t, p, ExitRejected, e);
    t := e;
  }

  /**
    The escape is real, for every attempt after the first and without any clear: a nested
    follow-up's rejection leaves through the outer call and releases its claim while the
    registry update of its own accepted job is still pending.
  */
  lemma EscapeHappens(id: Identity) returns (s: State)
    requires id.attempt > 1
    ensures Reachable(s) && !Retained(s, id)
    ensures s.claims == {} && s.cleared == {} && id in s.outbox && id in s.records
  {
    hide Reachable;
    s := OneAccepted(id);
    s := Publishes(s, 1, 5);
    s := Leaves(s, 1);
  }

  lemma OneInvoked(id: Identity) returns (s: State)
    ensures Reachable(s) && Standing(s, 1, AwaitOutcome) && s.procs[1].id == id && s.calls == map[1 := InFlight]
    ensures s.claims == {1} && s.cleared == {} && !s.transition && s.markers == map[id := 1] && s.visible == {} && s.jobs == map[]
    ensures s.records == map[] && s.rejections == map[] && s.outbox == map[] && s.synced == {}
  {
    hide Reachable;
    Starting();
    s := Approach(Init, 1, id, 7);
    assert s.claims == {1} && s.procs[1] == Proc(id, 7, CreateMarker);
    s := Invokes(s, 1, {});
    assert s.claims == {1} && s.calls[1] == InFlight && Standing(s, 1, AwaitOutcome);
  }

  lemma OneAccepted(id: Identity) returns (s: State)
    ensures Reachable(s) && Standing(s, 1, PublishRecord(5, None)) && s.procs[1].id == id
    ensures s.claims == {1} && s.cleared == {} && !s.transition && s.markers == map[id := 1]
    ensures s.records == map[] && s.rejections == map[] && s.outbox == map[] && s.synced == {}
  {
    hide Reachable;
    s := OneInvoked(id);
    s := Accepts(s, 1, 5);
  }
}
