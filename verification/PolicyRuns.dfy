/**
  Whole runs of any number of clients and broker daemons over one policy file.

  An operation that only rewrites the file is one step, taken while nobody holds the mutex.
  The launch contexts hold the mutex across a spawn, so entering, spawning and leaving
  are separate steps; leaving also stands for a crash of the holder. The clock never runs
  backwards, the file is never deleted, and bytes may be corrupted at any time.
*/
module PolicyRuns {
  import opened Options
  import opened PolicyStore

  /** Who is inside a launch context, and whether its one spawn has happened. */
  datatype Holder =
    | Reusing(spawned: bool)
    | LoggingIn(id: Id, direct: bool, spawned: bool)
    | Brokering(id: Id, spawned: bool)

  /** A daemon started for a consumed grant; it tries its launch gate once. */
  datatype Daemon = Daemon(target: Target, client: ClientId, launcher: int, tried: bool)

  datatype Consumption = Consumption(id: Id, at: real)

  /** The fields after `daemons` are history. */
  datatype World = World(
    now: real, file: File, holder: Option<Holder>, daemons: map<Id, Daemon>,
    ssh: multiset<Id>, consumed: set<Id>, ids: set<Id>, generations: set<Id>, last: Option<Consumption>)

  const Fresh := World(0.0, Missing, None, map[], multiset{}, {}, {}, {}, None)

  datatype Step =
    | Tick(to: real)
    | Corrupt(modified: real)
    | Disable(client: ClientId, generation: Id, repairId: Id)
    | Enable(revision: int, generation: Id)
    | Authorize(client: ClientId, revision: int, generation: Id, q: Request, id: Id)
    | Revoke(client: ClientId, id: Id)
    | Finish(id: Id, outcome: Outcome, returncode: Option<int>)
    | EnterReuse
    | EnterLogin(client: ClientId, launcher: int, id: Id, target: Target, direct: bool)
    | EnterBroker(id: Id)
    | Spawn
    | Leave

  function Seen(w: World): Option<State> { Read(w.file, w.now) }

  predicate Rewrites(w: World, v: World, t: Option<State>) {
    w.holder.None? && t.Some? && v == w.(file := Stored(t.value, w.now), ids := v.ids, generations := v.generations)
  }

  predicate Disables(w: World, v: World, client: ClientId, generation: Id, repairId: Id) {
    && generation !in w.generations && repairId !in w.ids
    && Rewrites(w, v, Some(Disabling(w.file, w.now, client, generation, repairId)))
    && v.ids == w.ids + {repairId} && v.generations == w.generations + {generation}
  }

  predicate Authorizes(w: World, v: World, client: ClientId, revision: int, generation: Id, q: Request, id: Id) {
    && id !in w.ids && Seen(w).Some?
    && Rewrites(w, v, Authorizing(Seen(w).value, w.now, client, revision, generation, q, id))
    && v.ids == w.ids + {id} && v.generations == w.generations
  }

  predicate EntersLogin(w: World, v: World, client: ClientId, launcher: int, id: Id, target: Target, direct: bool) {
    && w.holder.None? && launcher > 0 && Seen(w).Some?
    && var t := Consuming(Seen(w).value, w.now, client, launcher, id, target);
    && t.Some?
    && v == w.(file := Stored(t.value, w.now), holder := Some(LoggingIn(id, direct, false)),
               consumed := w.consumed + {id}, last := Some(Consumption(id, w.now)))
  }

  /** The daemon's gate; a refused daemon has used its only try as well. */
  predicate EntersBroker(w: World, v: World, id: Id) {
    && w.holder.None? && id in w.daemons && !w.daemons[id].tried
    && var d := w.daemons[id];
    && var ok := Seen(w).Some? && BrokerMaySpawn(Seen(w).value, id, d.target, d.client, d.launcher);
    && v == w.(daemons := w.daemons[id := d.(tried := true)],
               holder := if ok then Some(Brokering(id, false)) else None)
  }

  /** The one process creation a context is entered for. */
  predicate Spawns(w: World, v: World) {
    && w.holder.Some? && !w.holder.value.spawned
    && match w.holder.value
       case Reusing(_) => v == w.(holder := Some(Reusing(true)))
       case Brokering(id, _) => v == w.(holder := Some(Brokering(id, true)), ssh := w.ssh + multiset{id})
       case LoggingIn(id, direct, _) =>
         if direct then v == w.(holder := Some(LoggingIn(id, true, true)), ssh := w.ssh + multiset{id})
         else
           && id in v.daemons && !v.daemons[id].tried
           && v == w.(holder := Some(LoggingIn(id, false, true)), daemons := w.daemons[id := v.daemons[id]])
  }

  predicate Next(w: World, v: World, step: Step) {
    match step
    case Tick(to) => w.now <= to && v == w.(now := to)
    case Corrupt(modified) => !w.file.Missing? && w.file.modified <= modified && v == w.(file := Garbage(modified))
    case Disable(client, generation, repairId) => Disables(w, v, client, generation, repairId)
    case Enable(revision, generation) =>
      Seen(w).Some? && Rewrites(w, v, Enabling(Seen(w).value, revision, generation)) && v.ids == w.ids && v.generations == w.generations
    case Authorize(client, revision, generation, q, id) => Authorizes(w, v, client, revision, generation, q, id)
    case Revoke(client, id) =>
      Seen(w).Some? && Rewrites(w, v, Revoking(Seen(w).value, client, id)) && v.ids == w.ids && v.generations == w.generations
    case Finish(id, outcome, returncode) =>
      && Seen(w).Some? && Rewrites(w, v, Finishing(Seen(w).value, w.now, id, outcome, returncode))
      && v.ids == w.ids && v.generations == w.generations
    case EnterReuse =>
      w.holder.None? && Seen(w).Some? && Seen(w).value.mode == ReuseOnly && v == w.(holder := Some(Reusing(false)))
    case EnterLogin(client, launcher, id, target, direct) => EntersLogin(w, v, client, launcher, id, target, direct)
    case EnterBroker(id) => EntersBroker(w, v, id)
    case Spawn => Spawns(w, v)
    case Leave => w.holder.Some? && v == w.(holder := None)
  }

  ghost predicate IsRun(worlds: seq<World>, steps: seq<Step>) {
    && |worlds| == |steps| + 1 && worlds[0] == Fresh
    && forall i | 0 <= i < |steps| :: Next(worlds[i], worlds[i + 1], steps[i])
  }

  // -------------------------------------------------------------- invariant

  /** Identifiers are never issued twice, and an outstanding grant was never consumed. */
  predicate IdsInv(w: World) {
    && w.consumed <= w.ids && w.daemons.Keys <= w.consumed && (forall id | id in w.ssh :: id in w.consumed)
    && (w.file.Stored? ==>
          var s := w.file.state;
          && s.generation in w.generations
          && (s.grant.Some? ==> s.grant.value.id in w.ids && s.grant.value.id !in w.consumed)
          && (s.attempt.Some? ==> s.attempt.value.grantId in w.ids)
          && (s.grant.Some? && s.attempt.Some? ==> s.grant.value.id != s.attempt.value.grantId))
  }

  /** Times recorded in the file have passed. */
  predicate TimeInv(w: World) {
    && w.now >= 0.0 && (w.file.Stored? ==> Past(w.file.state, w.now))
  }

  /** At most one spawn is still owed to a grant, and none once it has spawned. */
  predicate SpawnInv(w: World) {
    && (forall id | id in w.ssh :: w.ssh[id] == 1)
    && (forall id | id in w.daemons && !w.daemons[id].tried :: id !in w.ssh && w.holder != Some(Brokering(id, false)))
    && (w.holder.Some? ==>
          match w.holder.value
          case Reusing(_) => true
          case LoggingIn(id, direct, spawned) =>
            id in w.consumed && (!spawned ==> id !in w.daemons && id !in w.ssh)
          case Brokering(id, spawned) => id in w.daemons && w.daemons[id].tried && (!spawned ==> id !in w.ssh))
  }

  /** After a consumption a new grant needs its success or the full cooldown. */
  predicate CoolState(s: State, c: Consumption) {
    && s.attempt.Some?
    && var a := s.attempt.value;
    var free := a.outcome == Success && a.grantId == c.id;
    && (a.outcome == Active ==> a.grantId == c.id)
    && (free || c.at + Cooldown <= a.blockedUntil) && (s.grant.Some? ==> free || c.at + Cooldown <= s.grant.value.createdAt)
  }

  predicate CoolInv(w: World) {
    w.last.Some? ==>
      && w.last.value.at <= w.now && !w.file.Missing? && w.last.value.at <= w.file.modified && w.last.value.at >= 0.0
      && (w.file.Stored? ==> CoolState(w.file.state, w.last.value))
  }

  predicate Inv(w: World) { IdsInv(w) && TimeInv(w) && SpawnInv(w) && CoolInv(w) }

  lemma IdsNext(w: World, v: World, step: Step)
    requires Inv(w) && Next(w, v, step)
    ensures IdsInv(v)
  {
    hide TimeInv, CoolInv, ValidGrant, ValidAttempt;
  }

  lemma TimeNext(w: World, v: World, step: Step)
    requires Inv(w) && Next(w, v, step)
    ensures TimeInv(v)
  {
    hide IdsInv, CoolInv, SpawnInv, ValidAttempt;
  }

  lemma SpawnNext(w: World, v: World, step: Step)
    requires Inv(w) && Next(w, v, step)
    ensures SpawnInv(v)
  {
    hide TimeInv, CoolInv, ValidState, Disabling, Enabling, Authorizing, Revoking, Finishing;
  }

  lemma CoolNext(w: World, v: World, step: Step)
    requires Inv(w) && Next(w, v, step)
    ensures CoolInv(v)
  {
    hide IdsInv, SpawnInv, ValidGrant;
  }

  lemma InvNext(w: World, v: World, step: Step)
    requires Inv(w) && Next(w, v, step)
    ensures Inv(v)
  {
    hide Next, IdsInv, TimeInv, SpawnInv, CoolInv;
    IdsNext(w, v, step);
    TimeNext(w, v, step);
    SpawnNext(w, v, step);
    CoolNext(w, v, step);
  }

  lemma {:induction false} InvRun(worlds: seq<World>, steps: seq<Step>, n: nat)
    requires IsRun(worlds, steps) && n < |worlds|
    ensures Inv(worlds[n])
  {
    if n > 0 {
      hide Next, Inv;
      InvRun(worlds, steps, n - 1);
      InvNext(worlds[n - 1], worlds[n], steps[n - 1]);
    }
  }

  // ------------------------------------------------- launch linearizability

  /** A spawn that reaches the cluster: a reuse launch, a command frame or an SSH login. */
  predicate RemoteSpawn(w: World, step: Step) {
    step == Spawn && w.holder.Some? && (w.holder.value.LoggingIn? ==> w.holder.value.direct)
  }

  /** Nobody is inside a launch context and nobody can enter one. */
  predicate Quiet(w: World) { w.holder.None? && (Seen(w).Some? ==> Seen(w).value.mode == Disabled) }

  lemma QuietNext(w: World, v: World, step: Step)
    requires TimeInv(w) && Quiet(w) && Next(w, v, step) && !step.Enable?
    ensures Quiet(v) && !RemoteSpawn(w, step)
  {
    hide ValidAttempt;
  }

  lemma {:induction false} QuietUntilEnabled(worlds: seq<World>, steps: seq<Step>, i: nat, j: nat)
    requires IsRun(worlds, steps) && i < j < |worlds| && steps[i].Disable?
    requires forall k | i < k < j :: !steps[k].Enable?
    ensures Quiet(worlds[j])
    decreases j
  {
    hide Inv, IsRun, Next, TimeInv, Quiet;
    InvRun(worlds, steps, j - 1);
    StepAt(worlds, steps, j - 1);
    if i == j - 1 {
      DisableQuiets(worlds[i], worlds[j], steps[i]);
    } else {
      QuietUntilEnabled(worlds, steps, i, j - 1);
      assert TimeInv(worlds[j - 1]) by { InvTime(worlds[j - 1]); }
      QuietNext(worlds[j - 1], worlds[j], steps[j - 1]);
    }
  }

  lemma StepAt(worlds: seq<World>, steps: seq<Step>, i: nat)
    requires IsRun(worlds, steps) && (i + 1 < |worlds| || i < |steps|)
    ensures |worlds| == |steps| + 1 && Next(worlds[i], worlds[i + 1], steps[i])
  {
    hide Next;
  }

  lemma InvTime(w: World)
    requires Inv(w)
    ensures TimeInv(w)
  {
  }

  lemma DisableQuiets(w: World, v: World, step: Step)
    requires Next(w, v, step) && step.Disable?
    ensures Quiet(v)
  {
  }

  /**
    Launch linearizability: after a completed disable, no remote spawn happens before a later
    enable, in any interleaving of clients, daemons, crashes and corruption.
  */
  lemma NoLaunchAfterDisable(worlds: seq<World>, steps: seq<Step>, i: nat, j: nat)
    requires IsRun(worlds, steps) && i < j < |steps| && steps[i].Disable? && RemoteSpawn(worlds[j], steps[j])
    ensures exists k | i < k < j :: steps[k].Enable?
  {
    if forall k | i < k < j :: !steps[k].Enable? {
      QuietUntilEnabled(worlds, steps, i, j);
    }
  }

  /** Each grant leads to at most one SSH process, and only after it was consumed. */
  lemma OneSpawnPerGrant(worlds: seq<World>, steps: seq<Step>, n: nat, id: Id)
    requires IsRun(worlds, steps) && n < |worlds|
    ensures worlds[n].ssh[id] <= 1 && (id in worlds[n].ssh ==> id in worlds[n].consumed)
  {
    InvRun(worlds, steps, n);
  }

  lemma ConsumedStays(w: World, v: World, step: Step)
    requires Next(w, v, step)
    ensures w.consumed <= v.consumed && w.ids <= v.ids && w.generations <= v.generations && w.now <= v.now
  {
    hide Read, Disabling, Enabling, Authorizing, Revoking, Finishing, Consuming, BrokerMaySpawn;
  }

  lemma {:induction false} HistoryGrows(worlds: seq<World>, steps: seq<Step>, i: nat, n: nat)
    requires IsRun(worlds, steps) && i <= n < |worlds|
    ensures worlds[i].consumed <= worlds[n].consumed && worlds[i].ids <= worlds[n].ids
    ensures worlds[i].generations <= worlds[n].generations && worlds[i].now <= worlds[n].now
    decreases n
  {
    hide Next;
    if i < n {
      HistoryGrows(worlds, steps, i, n - 1);
      ConsumedStays(worlds[n - 1], worlds[n], steps[n - 1]);
    }
  }

  /** No grant is consumed twice. */
  lemma ConsumedOnce(worlds: seq<World>, steps: seq<Step>, i: nat, j: nat)
    requires IsRun(worlds, steps) && i < j < |steps| && steps[i].EnterLogin? && steps[j].EnterLogin?
    ensures steps[i].id != steps[j].id
  {
    InvRun(worlds, steps, j);
    HistoryGrows(worlds, steps, i + 1, j);
    LoginConsumes(worlds[i], worlds[i + 1], steps[i]);
    LoginNeedsUnused(worlds[j], worlds[j + 1], steps[j]);
  }

  lemma LoginConsumes(w: World, v: World, step: Step)
    requires Next(w, v, step) && step.EnterLogin?
    ensures step.id in v.consumed && v.last == Some(Consumption(step.id, w.now))
  {
  }

  lemma LoginNeedsUnused(w: World, v: World, step: Step)
    requires Inv(w) && Next(w, v, step) && step.EnterLogin?
    ensures step.id !in w.consumed
  {
  }

  // ------------------------------------------------------------ the cooldown

  /** The file records that this attempt finished as a success. */
  predicate Succeeded(w: World, id: Id) {
    w.file.Stored? && w.file.state.attempt.Some? && w.file.state.attempt.value.grantId == id && w.file.state.attempt.value.outcome == Success
  }

  lemma {:induction false} LastStays(worlds: seq<World>, steps: seq<Step>, i: nat, n: nat)
    requires IsRun(worlds, steps) && i < n < |worlds| && steps[i].EnterLogin? && (forall k | i < k < n :: !steps[k].EnterLogin?)
    ensures worlds[n].last == Some(Consumption(steps[i].id, worlds[i].now))
    decreases n
  {
    hide Next;
    if n == i + 1 {
      LoginConsumes(worlds[i], worlds[n], steps[i]);
    } else {
      LastStays(worlds, steps, i, n - 1);
      LastUnchanged(worlds[n - 1], worlds[n], steps[n - 1]);
    }
  }

  lemma LastUnchanged(w: World, v: World, step: Step)
    requires Next(w, v, step) && !step.EnterLogin?
    ensures v.last == w.last
  {
    hide Read, Disabling, Enabling, Authorizing, Revoking, Finishing, BrokerMaySpawn;
  }

  /** A grant is issued only when the last attempt had succeeded or its cooldown had passed. */
  lemma GrantNeedsCooldown(w: World, v: World, step: Step)
    requires Inv(w) && Next(w, v, step) && step.Authorize? && w.last.Some?
    ensures w.last.value.at + Cooldown <= w.now || Succeeded(w, w.last.value.id)
  {
    hide IdsInv, SpawnInv, TimeInv, ValidGrant, ValidAttempt;
  }

  /** A grant on record is the one on record before, or the step just issued it. */
  lemma GrantComesFrom(w: World, v: World, step: Step)
    requires Next(w, v, step) && v.file.Stored? && v.file.state.grant.Some?
    ensures (step.Authorize? && step.id == v.file.state.grant.value.id)
         || (w.file.Stored? && w.file.state.grant.Some? && w.file.state.grant.value.id == v.file.state.grant.value.id)
  {
    hide ValidGrant, ValidAttempt;
  }

  /** After a consumption every grant on record was issued by a later step. */
  lemma {:induction false} GrantIssuedSince(worlds: seq<World>, steps: seq<Step>, i: nat, n: nat) returns (k: nat)
    requires IsRun(worlds, steps) && i < n < |worlds| && steps[i].EnterLogin?
    requires worlds[n].file.Stored? && worlds[n].file.state.grant.Some?
    ensures i < k < n && steps[k].Authorize? && steps[k].id == worlds[n].file.state.grant.value.id
    decreases n
  {
    hide Next, IsRun;
    StepAt(worlds, steps, n - 1);
    if n - 1 == i { LoginLeavesNoGrant(worlds[i], worlds[n], steps[i]); }
    GrantComesFrom(worlds[n - 1], worlds[n], steps[n - 1]);
    if steps[n - 1].Authorize? && steps[n - 1].id == worlds[n].file.state.grant.value.id {
      k := n - 1;
    } else {
      k := GrantIssuedSince(worlds, steps, i, n - 1);
    }
  }

  lemma LoginLeavesNoGrant(w: World, v: World, step: Step)
    requires Next(w, v, step) && step.EnterLogin?
    ensures v.file.Stored? && v.file.state.grant.None?
  {
  }

  lemma LoginUsesGrant(w: World, v: World, step: Step)
    requires Next(w, v, step) && step.EnterLogin?
    ensures w.file.Stored? && w.file.state.grant.Some? && w.file.state.grant.value.id == step.id
  {
  }

  /**
    Global cooldown: of two consecutive consumptions, the grant of the second was issued in between,
    and by then the first attempt had finished as a success or its cooldown had passed; across
    disable, stale marking, corruption and repair.
  */
  lemma GlobalCooldown(worlds: seq<World>, steps: seq<Step>, i: nat, j: nat) returns (k: nat)
    requires IsRun(worlds, steps) && i < j < |steps| && steps[i].EnterLogin? && steps[j].EnterLogin?
    requires forall k | i < k < j :: !steps[k].EnterLogin?
    ensures i < k < j && steps[k].Authorize? && steps[k].id == steps[j].id
    ensures worlds[i].now + Cooldown <= worlds[k].now <= worlds[j].now || Succeeded(worlds[k], steps[i].id)
  {
    hide Next, Inv, IsRun, Succeeded;
    StepAt(worlds, steps, i);
    StepAt(worlds, steps, j);
    LoginUsesGrant(worlds[j], worlds[j + 1], steps[j]);
    k := GrantIssuedSince(worlds, steps, i, j);
    StepAt(worlds, steps, k);
    InvRun(worlds, steps, k);
    LastStays(worlds, steps, i, k);
    GrantNeedsCooldown(worlds[k], worlds[k + 1], steps[k]);
    HistoryGrows(worlds, steps, k, j);
  }

  // ------------------------------------------------------------------ no ABA

  /** Since `s` was stored its generation only moved on to higher revisions. */
  predicate MovedOn(s: State, w: World) {
    && s.generation in w.generations
    && (w.file.Stored? && w.file.state.generation == s.generation ==>
          s.revision <= w.file.state.revision && (s.revision == w.file.state.revision ==> w.file.state == s))
  }

  lemma MovesOn(s: State, w: World, v: World, step: Step)
    requires Inv(w) && MovedOn(s, w) && Next(w, v, step)
    ensures MovedOn(s, v)
  {
    hide TimeInv, SpawnInv, CoolInv, ValidGrant, ValidAttempt;
  }

  lemma {:induction false} MovedOnRun(worlds: seq<World>, steps: seq<Step>, i: nat, n: nat)
    requires IsRun(worlds, steps) && i <= n < |worlds| && worlds[i].file.Stored?
    ensures MovedOn(worlds[i].file.state, worlds[n])
    decreases n
  {
    hide Next;
    InvRun(worlds, steps, n);
    if i < n {
      MovedOnRun(worlds, steps, i, n - 1);
      InvRun(worlds, steps, n - 1);
      hide Inv;
      MovesOn(worlds[i].file.state, worlds[n - 1], worlds[n], steps[n - 1]);
    }
  }

  /** No two distinct stored states of a run share a (generation, revision) pair. */
  lemma NoAba(worlds: seq<World>, steps: seq<Step>, i: nat, n: nat)
    requires IsRun(worlds, steps) && i <= n < |worlds| && worlds[i].file.Stored? && worlds[n].file.Stored?
    requires worlds[i].file.state.generation == worlds[n].file.state.generation
    requires worlds[i].file.state.revision == worlds[n].file.state.revision
    ensures worlds[i].file.state == worlds[n].file.state
  {
    MovedOnRun(worlds, steps, i, n);
  }

  /** An approval takes effect only on the very state it was given for. */
  lemma StaleApprovalRefused(worlds: seq<World>, steps: seq<Step>, i: nat, n: nat)
    requires IsRun(worlds, steps) && i <= n < |steps| && worlds[i].file.Stored? && (steps[n].Enable? || steps[n].Authorize?)
    requires steps[n].generation == worlds[i].file.state.generation && steps[n].revision == worlds[i].file.state.revision
    ensures worlds[n].file.Stored? && worlds[n].file.state == worlds[i].file.state
  {
    MovedOnRun(worlds, steps, i, n);
    assert Next(worlds[n], worlds[n + 1], steps[n]);
    hide IsRun, ValidGrant, ValidAttempt;
  }

  // ------------------------------------------------------- terminal attempts

  /** A terminal attempt is found unchanged or not at all. */
  predicate Kept(a: Attempt, w: World) {
    && a.grantId in w.ids
    && (w.file.Stored? && w.file.state.grant.Some? ==> w.file.state.grant.value.id != a.grantId)
    && (w.file.Stored? && w.file.state.attempt.Some? && w.file.state.attempt.value.grantId == a.grantId ==>
          w.file.state.attempt.value == a)
  }

  lemma Keeps(a: Attempt, w: World, v: World, step: Step)
    requires Inv(w) && a.outcome != Active && Kept(a, w) && Next(w, v, step)
    ensures Kept(a, v)
  {
    hide TimeInv, SpawnInv, CoolInv, ValidGrant, ValidAttempt;
  }

  /** Terminal attempts never change while they remain on record. */
  lemma {:induction false} TerminalAttemptsAreImmutable(worlds: seq<World>, steps: seq<Step>, i: nat, n: nat)
    requires IsRun(worlds, steps) && i <= n < |worlds|
    requires worlds[i].file.Stored? && worlds[i].file.state.attempt.Some? && worlds[i].file.state.attempt.value.outcome != Active
    ensures Kept(worlds[i].file.state.attempt.value, worlds[n])
    decreases n
  {
    hide Next;
    InvRun(worlds, steps, n);
    if i < n {
      TerminalAttemptsAreImmutable(worlds, steps, i, n - 1);
      InvRun(worlds, steps, n - 1);
      hide Inv;
      Keeps(worlds[i].file.state.attempt.value, worlds[n - 1], worlds[n], steps[n - 1]);
    }
  }

  // -------------------------------------------------------------- validity

  predicate Honest(step: Step) { step.Finish? && step.outcome == Success ==> step.returncode == Some(0) }

  /** The stored state, if there is one, is a state the validator accepts. */
  predicate Accepted(w: World) { w.file.Stored? ==> ValidState(w.file.state, w.now) }

  lemma AcceptedNext(w: World, v: World, step: Step)
    requires Inv(w) && Accepted(w) && Next(w, v, step)
    ensures Accepted(v) <==> Honest(step)
  {
    hide IdsInv, SpawnInv, CoolInv;
  }

  /** Every stored state of a run is valid exactly when every recorded success carries return code zero. */
  lemma {:induction false} ValidityPreserved(worlds: seq<World>, steps: seq<Step>, n: nat)
    requires IsRun(worlds, steps) && n < |worlds|
    ensures (forall k | 0 <= k <= n :: Accepted(worlds[k])) <==> (forall k | 0 <= k < n :: Honest(steps[k]))
    decreases n
  {
    hide Next;
    if n > 0 {
      ValidityPreserved(worlds, steps, n - 1);
      InvRun(worlds, steps, n - 1);
      hide Inv, Accepted, Honest;
      if Accepted(worlds[n - 1]) { AcceptedNext(worlds[n - 1], worlds[n], steps[n - 1]); }
    }
  }

  // -------------------------------------------------------------- a real run

  ghost predicate Reachable(w: World) {
    exists worlds, steps :: IsRun(worlds, steps) && worlds[|steps|] == w
  }

  lemma Reach(w: World, v: World, step: Step)
    requires Reachable(w) && Next(w, v, step)
    ensures Reachable(v)
  {
    var worlds, steps :| IsRun(worlds, steps) && worlds[|steps|] == w;
    hide Next;
    assert IsRun(worlds + [v], steps + [step]);
  }

  lemma Enabled() returns (w: World)
    ensures Reachable(w) && w == Fresh.(file := Stored(State(100, 2, ReuseOnly, None, None), 0.0), ids := {50}, generations := {100})
  {
    assert IsRun([Fresh], []);
    hide Reachable;
    var a := Fresh.(file := Stored(State(100, 1, Disabled, None, None), 0.0), ids := {} + {50}, generations := {} + {100});
    Reach(Fresh, a, Disable(1, 100, 50));
    w := a.(file := Stored(State(100, 2, ReuseOnly, None, None), 0.0));
    Reach(a, w, Enable(1, 100));
  }

  /** From a readable state outside any cooldown a client is granted a login and consumes it at once. */
  lemma LogsIn(w: World, id: Id) returns (v: World)
    requires Reachable(w) && w.holder.None? && id !in w.ids && Seen(w).Some?
    requires Seen(w).value.mode == ReuseOnly && Seen(w).value.grant.None? && !Cooling(Seen(w).value.attempt, w.now)
    requires TimeInv(w)
    ensures Reachable(v) && v.now == w.now && v.ids == w.ids + {id} && v.generations == w.generations && v.ssh == w.ssh
    ensures v.consumed == w.consumed + {id} && v.holder == Some(LoggingIn(id, true, false))
    ensures v.file == Stored(State(w.file.state.generation, w.file.state.revision + 2, ReuseOnly, None,
              Some(Attempt(id, 1, Some(42), Login, false, false, w.now, None, Active, None, w.now + Cooldown))), w.now)
  {
    hide Reachable;
    var s, q := Seen(w).value, Request(Login, false, false, 300.0);
    var granted := Authorizing(s, w.now, 1, s.revision, s.generation, q, id).value;
    var a := w.(file := Stored(granted, w.now), ids := w.ids + {id});
    Reach(w, a, Authorize(1, s.revision, s.generation, q, id));
    var t := Consuming(granted, w.now, 1, 42, id, Login).value;
    v := a.(file := Stored(t, w.now), holder := Some(LoggingIn(id, true, false)), consumed := w.consumed + {id},
            last := Some(Consumption(id, w.now)));
    Reach(a, v, EnterLogin(1, 42, id, Login, true));
  }

  /** The holder of a direct login spawns SSH, leaves and reports success. */
  lemma Succeeds(w: World, id: Id) returns (v: World)
    requires Reachable(w) && w.holder == Some(LoggingIn(id, true, false)) && Seen(w).Some? && TimeInv(w)
    requires Seen(w).value.attempt.Some? && Seen(w).value.attempt.value.grantId == id && Seen(w).value.attempt.value.outcome == Active
    ensures Reachable(v) && v.now == w.now && v.holder.None? && v.ids == w.ids && v.consumed == w.consumed && v.ssh == w.ssh + multiset{id}
    ensures v.file == Stored(Finishing(w.file.state, w.now, id, Success, Some(0)).value, w.now)
  {
    hide Reachable;
    var e := w.(holder := Some(LoggingIn(id, true, true)), ssh := w.ssh + multiset{id});
    Reach(w, e, Spawn);
    var f := e.(holder := None);
    Reach(e, f, Leave);
    v := f.(file := Stored(Finishing(w.file.state, w.now, id, Success, Some(0)).value, w.now));
    Reach(f, v, Finish(id, Success, Some(0)));
  }

  /**
    Logins do happen, and a success really lifts the cooldown: a run in which a client enables reuse,
    logs in, reports success and consumes a second grant at the same instant.
  */
  lemma TwoLoginsHappen() returns (w: World)
    ensures Reachable(w) && w.now == 0.0 && w.consumed == {7, 8} && w.ssh == multiset{7}
  {
    hide Reachable, Next;
    w := Enabled();
    w := LogsIn(w, 7);
    w := Succeeds(w, 7);
    w := LogsIn(w, 8);
  }

  /** A success reported with a nonzero code is written, and from then on no reader accepts the file. */
  lemma UnreadableSuccessHappens(code: int) returns (w: World)
    requires code != 0
    ensures Reachable(w) && w.file.Stored? && !Accepted(w) && Seen(w).None?
    ensures Succeeded(w, 7) && w.file.state.attempt.value.returncode == Some(code)
  {
    hide Reachable;
    w := Enabled();
    w := LogsIn(w, 7);
    var f := w.(holder := None);
    Reach(w, f, Leave);
    w := f.(file := Stored(Finishing(f.file.state, f.now, 7, Success, Some(code)).value, f.now));
    Reach(f, w, Finish(7, Success, Some(code)));
  }
}
