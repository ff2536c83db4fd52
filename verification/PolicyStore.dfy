/**
  The workstation policy file and the operations that rewrite it under the mutex.

  Each operation is a function from the validated state to the state it writes, `None`
  where the source raises or returns without writing, and a method of the store that
  mutates the state step by step and is proved against that function. The clock is read
  once per operation; UUIDs arrive as parameters.
*/
module PolicyStore {
  import opened Options

  type Id = int
  type ClientId = int

  datatype Mode = Disabled | ReuseOnly
  datatype Target = Login | Transfer
  datatype Outcome = Active | Success | Failure | TimedOut | Error | Stale

  const Ttl: real := 300.0
  const Cooldown: real := 300.0

  datatype Grant = Grant(
    id: Id, client: ClientId, target: Target, offVpn: bool, standing: bool,
    createdAt: real, expiresAt: real, remaining: int)

  datatype Attempt = Attempt(
    grantId: Id, client: ClientId, launcher: Option<int>, target: Target, offVpn: bool, standing: bool,
    startedAt: real, finishedAt: Option<real>, outcome: Outcome, returncode: Option<int>, blockedUntil: real)

  datatype State = State(generation: Id, revision: int, mode: Mode, grant: Option<Grant>, attempt: Option<Attempt>)

  /** What lies at the policy path; `modified` is the file's modification time. */
  datatype File = Missing | Garbage(modified: real) | Stored(state: State, modified: real)

  // -------------------------------------------------------------- validation

  predicate ValidGrant(g: Grant, now: real) {
    && g.remaining in {0, 1} && g.createdAt < g.expiresAt && g.expiresAt - g.createdAt <= Ttl && g.createdAt <= now
  }

  predicate ValidAttempt(a: Attempt) {
    && !(a.standing && a.offVpn) && (a.launcher.Some? ==> a.launcher.value > 0)
    && (a.outcome == Active ==> a.finishedAt.None? && a.returncode.None?)
    && (a.outcome != Active ==> a.finishedAt.Some? && a.startedAt <= a.finishedAt.value)
    && (a.outcome == Success ==> a.returncode == Some(0) && a.finishedAt == Some(a.blockedUntil))
    && (a.outcome != Success ==> a.startedAt + Cooldown <= a.blockedUntil)
  }

  /** `_validate_state`. */
  predicate ValidState(s: State, now: real) {
    && s.revision >= 0
    && (s.grant.Some? ==> ValidGrant(s.grant.value, now))
    && (s.attempt.Some? ==> ValidAttempt(s.attempt.value))
  }

  /** `_read_valid_state`: an unreadable policy reads as no policy at all. */
  function Read(f: File, now: real): (r: Option<State>)
    ensures r.Some? ==> f.Stored? && r.value == f.state && ValidState(r.value, now)
    ensures r.None? ==> !f.Stored? || !ValidState(f.state, now)
  {
    if f.Stored? && ValidState(f.state, now) then Some(f.state) else None
  }

  // -------------------------------------------------------------- operations

  function Bumped(s: State): State { s.(revision := s.revision + 1) }

  function Initial(generation: Id): State { State(generation, 0, Disabled, None, None) }

  /** The receipt that stands in for whatever attempt the malformed bytes erased. */
  function RepairAttempt(client: ClientId, repairId: Id, modified: real, now: real): Attempt {
    var capped := if modified < now then modified else now;
    var started := if capped < 0.0 then 0.0 else capped;
    Attempt(repairId, client, None, Login, false, false, started, Some(now), Error, None, started + Cooldown)
  }

  function ForRepair(f: File, now: real, client: ClientId, generation: Id, repairId: Id): State {
    if f.Missing? then Initial(generation)
    else if Read(f, now).Some? then f.state
    else Initial(generation).(attempt := Some(RepairAttempt(client, repairId, f.modified, now)))
  }

  function Disabling(f: File, now: real, client: ClientId, generation: Id, repairId: Id): State {
    Bumped(ForRepair(f, now, client, generation, repairId).(mode := Disabled, grant := None))
  }

  predicate Current(s: State, revision: int, generation: Id) {
    revision >= 0 && s.revision == revision && s.generation == generation
  }

  function Enabling(s: State, revision: int, generation: Id): Option<State> {
    if Current(s, revision, generation) then Some(Bumped(s.(mode := ReuseOnly, grant := None))) else None
  }

  datatype Request = Request(target: Target, offVpn: bool, standing: bool, ttl: real)

  predicate Cooling(a: Option<Attempt>, now: real) { a.Some? && now < a.value.blockedUntil }

  /** An active attempt whose cooldown has passed can no longer report. */
  function Aged(a: Option<Attempt>, now: real): Option<Attempt> {
    if a.Some? && a.value.outcome == Active then Some(a.value.(outcome := Stale, finishedAt := Some(now))) else a
  }

  function Authorizing(s: State, now: real, client: ClientId, revision: int, generation: Id, q: Request, id: Id): Option<State> {
    if || (q.standing && q.offVpn) || !(0.0 < q.ttl <= Ttl)
       || !Current(s, revision, generation) || s.mode != ReuseOnly
       || (s.grant.Some? && now < s.grant.value.expiresAt) || Cooling(s.attempt, now)
    then None
    else
      Some(Bumped(s.(
        grant := Some(Grant(id, client, q.target, q.offVpn, q.standing, now, now + q.ttl, 1)),
        attempt := Aged(s.attempt, now))))
  }

  /** `_require_matching_grant`. */
  predicate Usable(s: State, now: real, client: ClientId, id: Id, target: Target) {
    && s.grant.Some?
    && var g := s.grant.value;
    g.id == id && g.client == client && g.target == target && g.remaining == 1 && now < g.expiresAt
  }

  function Consuming(s: State, now: real, client: ClientId, launcher: int, id: Id, target: Target): Option<State> {
    if s.mode != ReuseOnly || !Usable(s, now, client, id, target) then None
    else
      var g := s.grant.value;
      Some(Bumped(s.(
        grant := None,
        attempt := Some(Attempt(g.id, g.client, Some(launcher), g.target, g.offVpn, g.standing,
                                now, None, Active, None, now + Cooldown)))))
  }

  function Revoking(s: State, client: ClientId, id: Id): Option<State> {
    if s.grant.Some? && s.grant.value.id == id && s.grant.value.client == client && s.grant.value.standing
    then Some(Bumped(s.(grant := None))) else None
  }

  function Finishing(s: State, now: real, id: Id, outcome: Outcome, returncode: Option<int>): Option<State> {
    if || outcome in {Active, Stale} || s.attempt.None?
       || s.attempt.value.grantId != id || s.attempt.value.outcome != Active
    then None
    else
      var a := s.attempt.value.(finishedAt := Some(now), outcome := outcome, returncode := returncode);
      Some(Bumped(s.(attempt := Some(if outcome == Success then a.(blockedUntil := now) else a))))
  }

  /** `authorize_consumed_broker_launch`. */
  predicate BrokerMaySpawn(s: State, id: Id, target: Target, client: ClientId, launcher: int) {
    && launcher > 0 && s.mode == ReuseOnly && s.attempt.Some?
    && var a := s.attempt.value;
    a.outcome == Active && a.grantId == id && a.target == target && a.client == client && a.launcher == Some(launcher)
  }

  // ---------------------------------------------------------- what writes keep

  /** Nothing recorded lies in the future. */
  predicate Past(s: State, now: real) {
    && (s.grant.Some? ==> s.grant.value.createdAt <= now)
    && (s.grant.Some? ==> !(s.grant.value.standing && s.grant.value.offVpn))
    && (s.attempt.Some? ==> s.attempt.value.startedAt <= now)
  }

  // ---------------------------------------------------------------- the store

  /** `O2PolicyStore`: every method reads, checks, edits and rewrites while it owns the mutex. */
  class Store {
    var file: File
    const client: ClientId

    constructor (path: File, id: ClientId)
      ensures file == path && client == id
    {
      file, client := path, id;
    }

    /** `_write_next_revision`; `ok` reports the strict reread. */
    method WriteNextRevision(state: State, now: real) returns (ok: bool)
      modifies this
      ensures file == Stored(Bumped(state), now) && ok == ValidState(Bumped(state), now)
    {
      var next := state;
      next := next.(revision := next.revision + 1);
      file := Stored(next, now);
      ok := Read(file, now).Some?;
    }

    method Disable(now: real, generation: Id, repairId: Id)
      modifies this
      ensures file == Stored(Disabling(old(file), now, client, generation, repairId), now)
    {
      var state := ForRepair(file, now, client, generation, repairId);
      state := state.(mode := Disabled);
      state := state.(grant := None);
      var _ := WriteNextRevision(state, now);
    }

    method EnableReuse(now: real, revision: int, generation: Id) returns (ok: bool)
      modifies this
      ensures var s := Read(old(file), now);
        var t := if s.Some? then Enabling(s.value, revision, generation) else None;
        file == (if t.Some? then Stored(t.value, now) else old(file)) && ok == t.Some?
    {
      var read := Read(file, now);
      if read.None? || !Current(read.value, revision, generation) { return false; }
      var state := read.value;
      state := state.(grant := None);
      state := state.(mode := ReuseOnly);
      ok := WriteNextRevision(state, now);
    }

    method AuthorizeLogin(now: real, revision: int, generation: Id, q: Request, id: Id) returns (ok: bool)
      modifies this
      ensures var s := Read(old(file), now);
        var t := if s.Some? then Authorizing(s.value, now, client, revision, generation, q, id) else None;
        file == (if t.Some? then Stored(t.value, now) else old(file)) && (ok ==> t.Some?)
        && (t.Some? && Past(s.value, now) ==> ok)
    {
      if (q.standing && q.offVpn) || !(0.0 < q.ttl <= Ttl) { return false; }
      var read := Read(file, now);
      if read.None? || !Current(read.value, revision, generation) || read.value.mode != ReuseOnly { return false; }
      var state := read.value;
      if state.grant.Some? && now >= state.grant.value.expiresAt { state := state.(grant := None); }
      if state.grant.Some? { return false; }
      if state.attempt.Some? {
        if now < state.attempt.value.blockedUntil { return false; }
        if state.attempt.value.outcome == Active {
          state := state.(attempt := Some(state.attempt.value.(outcome := Stale)));
          state := state.(attempt := Some(state.attempt.value.(finishedAt := Some(now))));
        }
      }
      state := state.(grant := Some(Grant(id, client, q.target, q.offVpn, q.standing, now, now + q.ttl, 1)));
      ok := WriteNextRevision(state, now);
    }

    method ConsumeLoginGrant(now: real, launcher: int, id: Id, target: Target) returns (ok: bool)
      modifies this
      ensures var s := Read(old(file), now);
        var t := if s.Some? then Consuming(s.value, now, client, launcher, id, target) else None;
        file == (if t.Some? then Stored(t.value, now) else old(file)) && (ok ==> t.Some?)
        && (t.Some? && launcher > 0 && Past(s.value, now) ==> ok)
    {
      var read := Read(file, now);
      if read.None? || read.value.mode != ReuseOnly || !Usable(read.value, now, client, id, target) { return false; }
      var state, grant := read.value, read.value.grant.value;
      state := state.(grant := None);
      state := state.(attempt := Some(Attempt(grant.id, grant.client, Some(launcher), grant.target, grant.offVpn,
                                              grant.standing, now, None, Active, None, now + Cooldown)));
      ok := WriteNextRevision(state, now);
    }

    method RevokeUnusedStandingGrant(now: real, id: Id) returns (ok: bool)
      modifies this
      ensures var s := Read(old(file), now);
        var t := if s.Some? then Revoking(s.value, client, id) else None;
        file == (if t.Some? then Stored(t.value, now) else old(file)) && ok == t.Some?
    {
      var read := Read(file, now);
      if read.None? || read.value.grant.None? { return false; }
      var grant := read.value.grant.value;
      if grant.id != id || grant.client != client || !grant.standing { return false; }
      ok := WriteNextRevision(read.value.(grant := None), now);
    }

    /** A success with a nonzero return code is written and then refused by the reread. */
    method FinishLoginAttempt(now: real, id: Id, outcome: Outcome, returncode: Option<int>) returns (ok: bool)
      modifies this
      ensures var s := Read(old(file), now);
        var t := if s.Some? then Finishing(s.value, now, id, outcome, returncode) else None;
        file == (if t.Some? then Stored(t.value, now) else old(file)) && (ok ==> t.Some?)
        && (t.Some? && Past(s.value, now) ==> (ok <==> (outcome == Success ==> returncode == Some(0))))
    {
      if outcome in {Active, Stale} { return false; }
      var read := Read(file, now);
      if read.None? || read.value.attempt.None? { return false; }
      var state, attempt := read.value, read.value.attempt.value;
      if attempt.grantId != id || attempt.outcome != Active { return false; }
      attempt := attempt.(finishedAt := Some(now));
      attempt := attempt.(outcome := outcome);
      attempt := attempt.(returncode := returncode);
      if outcome == Success { attempt := attempt.(blockedUntil := now); }
      state := state.(attempt := Some(attempt));
      ok := WriteNextRevision(state, now);
    }
  }
}
