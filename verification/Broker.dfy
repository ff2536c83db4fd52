/**
  The local broker daemon as a transition system: any number of callers, one daemon that
  serves one caller at a time, and one remote helper behind the sole channel.

  A call is named by its request id. Local sockets and the channel are reliable byte streams:
  what was written completely arrives before an end of file. Deadlines may expire, callers
  may go away and the transport may fail at any moment.
*/
module Broker {
  import opened Options

  type Id = int

  /** A frame a caller can receive; `from` is the command whose output a reply carries. */
  datatype Frame = Dispatched(id: Id) | Refusal | Denial | Reply(id: Id, from: Id) | HelperError(id: Id)

  /** How `execute` ends. `Unknown` is the family of outcome-unknown errors, busy included. */
  datatype Outcome = Returned(from: Id) | Invalid | Unavailable | PolicyDenied | Refused | Unknown

  datatype Progress = Preparing | Waiting | Acknowledged | Finished(outcome: Outcome)

  /** The daemon's end of one local connection; `acked` remembers a completed acknowledgement. */
  datatype Line = Pending | Open | Closed
  datatype Conn = Conn(line: Line, inbox: seq<Frame>, acked: bool)

  datatype Daemon = Listening | Serving(id: Id) | Admitted(id: Id) | Acking(id: Id) | Forwarded(id: Id) | Dead

  /** `forwarded` and `executed` are history. */
  datatype World = World(
    calls: map<Id, Progress>, conns: map<Id, Conn>, daemon: Daemon,
    toHelper: seq<Id>, running: Option<Id>, fromHelper: seq<Frame>,
    forwarded: multiset<Id>, executed: multiset<Id>)

  const Start := World(map[], map[], Listening, [], None, [], multiset{}, multiset{})

  datatype Step =
    | Begin(id: Id)
    | RejectLocally(id: Id)         // an argument or encoding check fails before any connection
    | FailToSend(id: Id)            // no connection, or it breaks before the request is complete
    | Send(id: Id)
    | GiveUp(id: Id)                // a deadline expires in the queue or while waiting
    | Receive(id: Id)               // the caller reads the next frame
    | ReceiveEnd(id: Id)            // the caller reads the end of a closed connection
    | Accept(id: Id)
    | Drop                          // unreadable request, absent caller or failed acknowledgement
    | Refuse
    | Deny
    | Admit                         // the policy gate, held through the remote write
    | Acknowledge
    | Forward
    | Collect(delivered: bool)
    | FailTransport
    | HelperTakes
    | HelperAnswers(ran: bool)

  function Calls(w: World, id: Id, p: Progress): World { w.(calls := w.calls[id := p]) }

  predicate At(w: World, id: Id, p: Progress) { id in w.calls && w.calls[id] == p }

  function Hangup(w: World, id: Id): World
    requires id in w.conns
  {
    w.(conns := w.conns[id := w.conns[id].(line := Closed)])
  }

  function Post(w: World, id: Id, f: Frame): World
    requires id in w.conns
  {
    w.(conns := w.conns[id := w.conns[id].(inbox := w.conns[id].inbox + [f])])
  }

  /** What a caller makes of a frame. */
  function Understands(id: Id, p: Progress, f: Frame): Progress {
    if p == Waiting then
      match f
      case Dispatched(i) => if i == id then Progress.Acknowledged else Finished(Unknown)
      case Refusal => Finished(Refused)
      case Denial => Finished(PolicyDenied)
      case Reply(_, _) => Finished(Unknown)
      case HelperError(_) => Finished(Refused)
    else if f.Reply? && f.id == id then Finished(Returned(f.from))
    else Finished(Unknown)
  }

  /** The transport is gone: the daemon stops and every connection ends. */
  function Collapse(w: World): World {
    w.(daemon := Dead, conns := map id | id in w.conns :: w.conns[id].(line := Closed))
  }

  predicate Caller(w: World, v: World, step: Step)
    requires step.Begin? || step.RejectLocally? || step.FailToSend? || step.Send? || step.GiveUp? || step.Receive? || step.ReceiveEnd?
  {
    match step
    case Begin(id) => id !in w.calls && v == Calls(w, id, Preparing)
    case RejectLocally(id) => At(w, id, Preparing) && v == Calls(w, id, Finished(Invalid))
    case FailToSend(id) => At(w, id, Preparing) && v == Calls(w, id, Finished(Unavailable))
    case Send(id) =>
      && At(w, id, Preparing)
      && v == Calls(w, id, Waiting).(conns := w.conns[id := Conn(if w.daemon.Dead? then Closed else Pending, [], false)])
    case GiveUp(id) =>
      && id in w.calls && (w.calls[id].Preparing? || w.calls[id].Waiting? || w.calls[id].Acknowledged?)
      && v == Calls(w, id, Finished(Unknown))
    case Receive(id) =>
      && id in w.calls && (w.calls[id].Waiting? || w.calls[id].Acknowledged?)
      && id in w.conns && w.conns[id].inbox != []
      && v == Calls(w, id, Understands(id, w.calls[id], w.conns[id].inbox[0])).(
           conns := w.conns[id := w.conns[id].(inbox := w.conns[id].inbox[1..])])
    case ReceiveEnd(id) =>
      && id in w.calls && (w.calls[id].Waiting? || w.calls[id].Acknowledged?)
      && id in w.conns && w.conns[id].inbox == [] && w.conns[id].line == Closed
      && v == Calls(w, id, Finished(if w.calls[id].Waiting? then Unavailable else Unknown))
  }

  predicate DaemonStep(w: World, v: World, step: Step)
    requires step.Accept? || step.Drop? || step.Refuse? || step.Deny? || step.Admit? || step.Acknowledge? || step.Forward?
          || step.Collect? || step.FailTransport?
  {
    match step
    case Accept(id) =>
      && w.daemon.Listening? && id in w.conns && w.conns[id].line == Pending
      && v == w.(daemon := Serving(id), conns := w.conns[id := w.conns[id].(line := Open)])
    case Drop => (w.daemon.Serving? || w.daemon.Admitted?) && w.daemon.id in w.conns && v == Hangup(w, w.daemon.id).(daemon := Listening)
    case Refuse => w.daemon.Serving? && w.daemon.id in w.conns && v == Hangup(Post(w, w.daemon.id, Refusal), w.daemon.id).(daemon := Listening)
    case Deny => w.daemon.Serving? && w.daemon.id in w.conns && v == Hangup(Post(w, w.daemon.id, Denial), w.daemon.id).(daemon := Listening)
    case Admit => w.daemon.Serving? && v == w.(daemon := Admitted(w.daemon.id))
    case Acknowledge =>
      && w.daemon.Admitted? && w.daemon.id in w.conns
      && var id := w.daemon.id;
      && v == w.(daemon := Acking(id), conns := w.conns[id := w.conns[id].(acked := true, inbox := w.conns[id].inbox + [Dispatched(id)])])
    case Forward =>
      && w.daemon.Acking?
      && v == w.(daemon := Forwarded(w.daemon.id), toHelper := w.toHelper + [w.daemon.id], forwarded := w.forwarded + multiset{w.daemon.id})
    case Collect(delivered) =>
      // a mismatched id stops the channel; a lost local reply does not
      && w.daemon.Forwarded? && w.fromHelper != [] && w.daemon.id in w.conns
      && var id, f := w.daemon.id, w.fromHelper[0];
      && var x := w.(fromHelper := w.fromHelper[1..]);
      if !(f.Reply? || f.HelperError?) || f.id != id then v == Collapse(x)
      else v == Hangup(if delivered then Post(x, id, f) else x, id).(daemon := Listening)
    case FailTransport => v == Collapse(w)
  }

  predicate HelperStep(w: World, v: World, step: Step)
    requires step.HelperTakes? || step.HelperAnswers?
  {
    match step
    case HelperTakes =>
      w.running.None? && w.toHelper != [] && v == w.(running := Some(w.toHelper[0]), toHelper := w.toHelper[1..])
    case HelperAnswers(ran) =>
      && w.running.Some?
      && var id := w.running.value;
      if ran then v == w.(running := None, fromHelper := w.fromHelper + [Reply(id, id)], executed := w.executed + multiset{id})
      else v == w.(running := None, fromHelper := w.fromHelper + [HelperError(id)])
  }

  predicate IsCaller(step: Step) {
    step.Begin? || step.RejectLocally? || step.FailToSend? || step.Send? || step.GiveUp? || step.Receive? || step.ReceiveEnd?
  }

  predicate IsHelper(step: Step) { step.HelperTakes? || step.HelperAnswers? }

  predicate Next(w: World, v: World, step: Step) {
    if IsCaller(step) then Caller(w, v, step) else if IsHelper(step) then HelperStep(w, v, step) else DaemonStep(w, v, step)
  }

  ghost predicate IsRun(worlds: seq<World>, steps: seq<Step>) {
    && |worlds| == |steps| + 1 && worlds[0] == Start
    && forall i | 0 <= i < |steps| :: Next(worlds[i], worlds[i + 1], steps[i])
  }

  // -------------------------------------------------------------- invariant

  /** The caller the daemon is busy with. */
  function Busy(d: Daemon): Option<Id> { if d.Listening? || d.Dead? then None else Some(d.id) }

  predicate Answered(w: World, id: Id) { w.forwarded[id] == 1 && w.executed[id] == 1 }

  /** Frames in an inbox tell the truth about their own command. */
  predicate TrueFrame(w: World, id: Id, f: Frame) {
    match f
    case Dispatched(i) => i == id
    case Reply(i, from) => i == id && from == id && Answered(w, id)
    case HelperError(i) => i == id
    case _ => true
  }

  /** One connection: what was written to it, and that nothing is forwarded before its acknowledgement. */
  predicate ConnOk(w: World, id: Id)
    requires id in w.conns
  {
    var c := w.conns[id];
    && id in w.calls && !w.calls[id].Preparing?
    && (forall f | f in c.inbox :: TrueFrame(w, id, f))
    && (!c.acked ==> w.forwarded[id] == 0)
    && (c.line == Pending ==> !c.acked && c.inbox == [])
    && (c.line == Open <==> Busy(w.daemon) == Some(id))
    && (w.calls[id] == Waiting && c.acked ==> c.inbox != [] && c.inbox[0] == Dispatched(id))
    && (w.calls[id] == Waiting && !c.acked && c.line != Closed ==> c.inbox == [])
    && (!c.acked ==> forall f | f in c.inbox :: f.Refusal? || f.Denial?)
  }

  /** What a finished or unfinished call may rely on. */
  predicate CallOk(w: World, id: Id)
    requires id in w.calls
  {
    match w.calls[id]
    case Preparing => id !in w.conns
    case Waiting => id in w.conns
    case Acknowledged => id in w.conns && w.conns[id].acked
    case Finished(outcome) =>
      match outcome
      case Returned(from) => from == id && Answered(w, id)
      case Unknown => true
      case _ => NeverForwarded(w, id)
  }

  /** Not forwarded, and without any way left to be. */
  predicate NeverForwarded(w: World, id: Id) {
    w.forwarded[id] == 0 && (id in w.conns ==> w.conns[id].line == Closed && !w.conns[id].acked)
  }

  predicate Outstanding(w: World, id: Id) { id in w.toHelper || w.running == Some(id) }

  /** No command is forwarded or executed twice, and answers on the channel are true. */
  ghost predicate Counts(w: World) {
    && (forall id :: w.forwarded[id] <= 1 && w.executed[id] <= w.forwarded[id])
    && (forall id | Outstanding(w, id) :: w.forwarded[id] == 1 && w.executed[id] == 0)
    && |w.toHelper| <= 1 && (w.toHelper != [] ==> w.running.None?)
    && (forall f | f in w.fromHelper :: (f.Reply? && f.from == f.id && Answered(w, f.id)) || f.HelperError?)
  }

  /** The channel carries at most the one command that is being served. */
  predicate Stage(w: World) {
    match w.daemon
    case Forwarded(id) =>
      && id in w.conns && w.conns[id].acked && w.forwarded[id] == 1
      && ((w.toHelper == [id] && w.running.None? && w.fromHelper == [])
          || (w.toHelper == [] && w.running == Some(id) && w.fromHelper == [])
          || (w.toHelper == [] && w.running.None? && |w.fromHelper| == 1
              && (w.fromHelper[0].Reply? || w.fromHelper[0].HelperError?) && w.fromHelper[0].id == id))
    case Dead => true
    case Acking(id) => id in w.conns && w.conns[id].acked && w.forwarded[id] == 0 && Clear(w)
    case Listening => Clear(w)
    case _ => w.daemon.id in w.conns && !w.conns[w.daemon.id].acked && w.conns[w.daemon.id].inbox == [] && Clear(w)
  }

  ghost predicate ChannelOk(w: World) { Counts(w) && Stage(w) }

  /** Nothing is outstanding on the channel. */
  predicate Clear(w: World) { w.toHelper == [] && w.running.None? && w.fromHelper == [] }

  ghost predicate Locals(w: World) {
    && (forall id | id in w.conns :: ConnOk(w, id))
    && (forall id | id in w.calls :: CallOk(w, id))
    && (forall id | id in w.forwarded :: id in w.conns)
  }

  ghost predicate Inv(w: World) { Locals(w) && ChannelOk(w) }

  // ------------------------------------------------------------------ frames

  /** Nothing about this call changed. */
  predicate Same(w: World, v: World, id: Id) {
    && (id in w.calls <==> id in v.calls) && (id in w.calls ==> w.calls[id] == v.calls[id])
    && (id in w.conns <==> id in v.conns) && (id in w.conns ==> w.conns[id] == v.conns[id])
    && w.forwarded[id] == v.forwarded[id] && w.executed[id] == v.executed[id]
    && (Busy(w.daemon) == Some(id) <==> Busy(v.daemon) == Some(id))
  }

  ghost predicate Others(w: World, v: World, id: Id) {
    forall i | i != id :: Same(w, v, i)
  }

  lemma SameOk(w: World, v: World, id: Id)
    requires Same(w, v, id)
    ensures id in w.conns && ConnOk(w, id) ==> ConnOk(v, id)
    ensures id in w.calls && CallOk(w, id) ==> CallOk(v, id)
  {
  }

  /** A step about one call keeps every other call's invariant. */
  lemma LocalsFrame(w: World, v: World, id: Id)
    requires Locals(w) && Others(w, v, id)
    requires (id in v.conns ==> ConnOk(v, id)) && (id in v.calls ==> CallOk(v, id)) && (id in v.forwarded ==> id in v.conns)
    ensures Locals(v)
  {
    hide Same, ConnOk, CallOk;
    forall i | i in v.conns ensures ConnOk(v, i) { if i != id { SameUse(w, v, i); } }
    forall i | i in v.calls ensures CallOk(v, i) { if i != id { SameUse(w, v, i); } }
    forall i | i in v.forwarded ensures i in v.conns { if i != id { SameUse(w, v, i); } }
  }

  lemma SameUse(w: World, v: World, i: Id)
    requires Locals(w) && Same(w, v, i)
    ensures (i in v.conns ==> ConnOk(v, i)) && (i in v.calls ==> CallOk(v, i)) && (i in v.forwarded ==> i in v.conns)
  {
    hide ConnOk, CallOk;
    SameOk(w, v, i);
  }

  lemma LocalOf(w: World, id: Id)
    requires Locals(w)
    ensures (id in w.conns ==> ConnOk(w, id)) && (id in w.calls ==> CallOk(w, id)) && (id in w.forwarded ==> id in w.conns)
  {
  }

  // ------------------------------------------------------------------ callers

  lemma CallerOthers(w: World, v: World, step: Step)
    requires IsCaller(step) && Caller(w, v, step)
    ensures Others(w, v, step.id) && v == w.(calls := v.calls, conns := v.conns)
  {
  }

  lemma CallerOwn(w: World, v: World, step: Step)
    requires IsCaller(step) && Caller(w, v, step)
    requires (step.id in w.conns ==> ConnOk(w, step.id)) && (step.id in w.calls ==> CallOk(w, step.id))
    requires (step.id in w.forwarded ==> step.id in w.conns) && (Busy(w.daemon) == Some(step.id) ==> step.id in w.conns)
    ensures (step.id in v.conns ==> ConnOk(v, step.id)) && (step.id in v.calls ==> CallOk(v, step.id))
    ensures step.id in v.forwarded ==> step.id in v.conns
  {
    if step.Receive? { InboxTail(w.conns[step.id].inbox); }
  }

  lemma InboxTail(inbox: seq<Frame>)
    requires inbox != []
    ensures inbox[0] in inbox && forall f | f in inbox[1..] :: f in inbox
  {
  }

  lemma BusyIsConnected(w: World)
    requires ChannelOk(w)
    ensures Busy(w.daemon).Some? ==> Busy(w.daemon).value in w.conns
  {
  }

  lemma CallerKeeps(w: World, v: World, step: Step)
    requires Inv(w) && IsCaller(step) && Caller(w, v, step)
    ensures Inv(v)
  {
    hide Locals, Stage, Counts, Caller, ConnOk, CallOk, Others;
    BusyIsConnected(w);
    LocalOf(w, step.id);
    CallerOthers(w, v, step);
    CallerOwn(w, v, step);
    LocalsFrame(w, v, step.id);
    assert Counts(v) by { SameCounts(w, v); }
    assert Stage(v) by { CallerStage(w, v, step); }
  }

  lemma SameCounts(w: World, v: World)
    requires Counts(w) && v == w.(calls := v.calls, conns := v.conns, daemon := v.daemon)
    ensures Counts(v)
  {
    assert forall id | Outstanding(v, id) :: Outstanding(w, id);
    assert forall id | Answered(w, id) :: Answered(v, id);
  }

  lemma CallerStage(w: World, v: World, step: Step)
    requires Stage(w) && IsCaller(step) && Caller(w, v, step) && (step.id in w.calls ==> CallOk(w, step.id))
    ensures Stage(v)
  {
  }

  // ---------------------------------------------------------------- the daemon

  /** The call a daemon step is about. */
  function Subject(w: World, step: Step): Id { if step.Accept? then step.id else if Busy(w.daemon).Some? then Busy(w.daemon).value else 0 }

  predicate Collapses(w: World, step: Step) {
    || step.FailTransport?
    || (step.Collect? && w.daemon.Forwarded? && w.fromHelper != []
        && (!(w.fromHelper[0].Reply? || w.fromHelper[0].HelperError?) || w.fromHelper[0].id != w.daemon.id))
  }

  predicate IsDaemon(step: Step) { !IsCaller(step) && !IsHelper(step) }

  lemma DaemonOthers(w: World, v: World, step: Step)
    requires IsDaemon(step) && DaemonStep(w, v, step) && !Collapses(w, step)
    ensures Others(w, v, Subject(w, step)) && v.calls == w.calls
  {
  }

  lemma DaemonOwn(w: World, v: World, step: Step)
    requires IsDaemon(step) && DaemonStep(w, v, step) && !Collapses(w, step) && Stage(w) && Counts(w)
    requires var id := Subject(w, step);
      (id in w.conns ==> ConnOk(w, id)) && (id in w.calls ==> CallOk(w, id)) && (id in w.forwarded ==> id in w.conns)
    ensures var id := Subject(w, step);
      (id in v.conns ==> ConnOk(v, id)) && (id in v.calls ==> CallOk(v, id)) && (id in v.forwarded ==> id in v.conns)
  {
    hide ConnOk, CallOk, Counts, Stage, DaemonStep;
    DaemonOwnConn(w, v, step);
    DaemonOwnCall(w, v, step);
  }

  lemma DaemonOwnConn(w: World, v: World, step: Step)
    requires IsDaemon(step) && DaemonStep(w, v, step) && !Collapses(w, step) && Stage(w) && Counts(w)
    requires Subject(w, step) in w.conns ==> ConnOk(w, Subject(w, step))
    ensures Subject(w, step) in v.conns ==> ConnOk(v, Subject(w, step))
  {
  }

  lemma DaemonOwnCall(w: World, v: World, step: Step)
    requires IsDaemon(step) && DaemonStep(w, v, step) && !Collapses(w, step) && Stage(w)
    requires var id := Subject(w, step); (id in w.calls ==> CallOk(w, id)) && (id in w.forwarded ==> id in w.conns)
    requires Subject(w, step) in w.conns ==> ConnOk(w, Subject(w, step))
    ensures var id := Subject(w, step); (id in v.calls ==> CallOk(v, id)) && (id in v.forwarded ==> id in v.conns)
  {
  }

  lemma DaemonCounts(w: World, v: World, step: Step)
    requires IsDaemon(step) && DaemonStep(w, v, step) && Stage(w) && Counts(w)
    ensures Counts(v)
  {
    if step.Forward? {
      var id := w.daemon.id;
      assert v.toHelper == [id];
      forall i | Outstanding(v, i) ensures v.forwarded[i] == 1 && v.executed[i] == 0 { assert i == id; }
    } else {
      assert forall i | Outstanding(v, i) :: Outstanding(w, i);
      assert forall f | f in v.fromHelper :: f in w.fromHelper;
      assert forall f | f in w.fromHelper :: f.Reply? ==> Answered(w, f.id);
    }
  }

  lemma DaemonStage(w: World, v: World, step: Step)
    requires IsDaemon(step) && DaemonStep(w, v, step) && Stage(w) && !Collapses(w, step)
    requires Subject(w, step) in w.conns ==> ConnOk(w, Subject(w, step))
    ensures Stage(v)
  {
  }

  lemma CollapseKeeps(w: World, x: World, v: World)
    requires Locals(w) && x == w.(fromHelper := x.fromHelper) && v == Collapse(x)
    ensures Locals(v) && Stage(v)
  {
    hide CallOk, ConnOk;
    forall i | i in v.conns ensures ConnOk(v, i) { LocalOf(w, i); CollapseConn(w, x, v, i); }
    forall i | i in v.calls ensures CallOk(v, i) { LocalOf(w, i); CollapseCall(w, x, v, i); }
  }

  lemma CollapseConn(w: World, x: World, v: World, i: Id)
    requires i in w.conns && ConnOk(w, i) && x == w.(fromHelper := x.fromHelper) && v == Collapse(x)
    ensures i in v.conns && ConnOk(v, i)
  {
  }

  lemma CollapseCall(w: World, x: World, v: World, i: Id)
    requires i in w.calls && CallOk(w, i) && x == w.(fromHelper := x.fromHelper) && v == Collapse(x)
    ensures i in v.calls && CallOk(v, i)
  {
  }

  lemma DaemonKeeps(w: World, v: World, step: Step)
    requires Inv(w) && IsDaemon(step) && DaemonStep(w, v, step)
    ensures Inv(v)
  {
    hide Locals, Stage, Counts, ConnOk, CallOk, Others;
    DaemonCounts(w, v, step);
    if Collapses(w, step) {
      CollapseKeeps(w, if step.Collect? then w.(fromHelper := w.fromHelper[1..]) else w, v);
    } else {
      hide DaemonStep;
      LocalOf(w, Subject(w, step));
      DaemonOthers(w, v, step);
      DaemonOwn(w, v, step);
      LocalsFrame(w, v, Subject(w, step));
      DaemonStage(w, v, step);
    }
  }

  // ---------------------------------------------------------------- the helper

  lemma HelperCounts(w: World, v: World, step: Step)
    requires IsHelper(step) && HelperStep(w, v, step) && Counts(w)
    ensures Counts(v)
  {
    if step.HelperTakes? {
      assert w.toHelper == [w.toHelper[0]] && v.toHelper == [];
      assert forall i | Outstanding(v, i) :: Outstanding(w, i);
    } else {
      var id := w.running.value;
      assert Outstanding(w, id);
      assert forall i | Outstanding(v, i) :: Outstanding(w, i) && i != id;
      forall f | f in v.fromHelper ensures (f.Reply? && f.from == f.id && Answered(v, f.id)) || f.HelperError? {
        assert f in w.fromHelper || f == v.fromHelper[|v.fromHelper| - 1];
      }
    }
  }

  lemma HelperStage(w: World, v: World, step: Step)
    requires IsHelper(step) && HelperStep(w, v, step) && Stage(w)
    ensures Stage(v)
  {
  }

  lemma HelperLocals(w: World, v: World, step: Step)
    requires IsHelper(step) && HelperStep(w, v, step) && Locals(w) && Counts(w)
    ensures Locals(v)
  {
    var id := if w.running.Some? then w.running.value else 0;
    assert w.running.Some? ==> Outstanding(w, id);
    LocalOf(w, id);
    HelperOwn(w, v, step, id);
    LocalsFrame(w, v, id);
  }

  lemma HelperOwn(w: World, v: World, step: Step, id: Id)
    requires IsHelper(step) && HelperStep(w, v, step) && (w.running.Some? ==> id == w.running.value && w.executed[id] == 0)
    requires (id in w.conns ==> ConnOk(w, id)) && (id in w.calls ==> CallOk(w, id))
    ensures (id in v.conns ==> ConnOk(v, id)) && (id in v.calls ==> CallOk(v, id)) && Others(w, v, id)
  {
  }

  lemma HelperKeeps(w: World, v: World, step: Step)
    requires Inv(w) && IsHelper(step) && HelperStep(w, v, step)
    ensures Inv(v)
  {
    hide Locals, Stage, Counts, HelperStep;
    HelperCounts(w, v, step);
    HelperStage(w, v, step);
    HelperLocals(w, v, step);
  }

  lemma InvNext(w: World, v: World, step: Step)
    requires Inv(w) && Next(w, v, step)
    ensures Inv(v)
  {
    hide Inv, Caller, DaemonStep, HelperStep;
    if IsCaller(step) {
      CallerKeeps(w, v, step);
    } else if IsHelper(step) {
      HelperKeeps(w, v, step);
    } else {
      DaemonKeeps(w, v, step);
    }
  }

  lemma {:induction false} InvRun(worlds: seq<World>, steps: seq<Step>, n: nat)
    requires IsRun(worlds, steps) && n < |worlds|
    ensures Inv(worlds[n])
  {
    if n > 0 {
      hide Next, Inv;
      InvRun(worlds, steps, n - 1);
      InvNext(worlds[n - 1], worlds[n], steps[n - 1]);
    }
  }

  // -------------------------------------------------------------- theorems

  predicate DefiniteFailure(o: Outcome) { o.Invalid? || o.Unavailable? || o.PolicyDenied? || o.Refused? }

  lemma FinishedStays(w: World, v: World, step: Step, id: Id)
    requires Next(w, v, step) && id in w.calls && w.calls[id].Finished?
    ensures id in v.calls && v.calls[id] == w.calls[id]
  {
  }

  lemma {:induction false} FinishedForGood(worlds: seq<World>, steps: seq<Step>, m: nat, n: nat, id: Id)
    requires IsRun(worlds, steps) && m <= n < |worlds| && id in worlds[m].calls && worlds[m].calls[id].Finished?
    ensures id in worlds[n].calls && worlds[n].calls[id] == worlds[m].calls[id]
    decreases n
  {
    if m < n {
      hide Next;
      FinishedForGood(worlds, steps, m, n - 1, id);
      FinishedStays(worlds[n - 1], worlds[n], steps[n - 1], id);
    }
  }

  /**
    Outcome soundness: a call that fails outside the outcome-unknown family was not forwarded, and is
    never forwarded later; a call that returns was forwarded and executed exactly once, and what it
    returns is the output of its own command.
  */
  lemma OutcomesAreSound(worlds: seq<World>, steps: seq<Step>, m: nat, n: nat, id: Id)
    requires IsRun(worlds, steps) && m <= n < |worlds| && id in worlds[m].calls && worlds[m].calls[id].Finished?
    ensures DefiniteFailure(worlds[m].calls[id].outcome) ==> worlds[n].forwarded[id] == 0 && worlds[n].executed[id] == 0
    ensures worlds[m].calls[id].outcome.Returned? ==>
      worlds[m].calls[id].outcome.from == id && worlds[n].forwarded[id] == 1 && worlds[n].executed[id] == 1
  {
    FinishedForGood(worlds, steps, m, n, id);
    InvRun(worlds, steps, n);
    assert CallOk(worlds[n], id);
    assert worlds[n].executed[id] <= worlds[n].forwarded[id];
  }

  /** No command is ever forwarded or executed twice, and between callers nothing is outstanding on the channel. */
  lemma ChannelIsSerialized(worlds: seq<World>, steps: seq<Step>, n: nat, id: Id)
    requires IsRun(worlds, steps) && n < |worlds|
    ensures worlds[n].forwarded[id] <= 1 && worlds[n].executed[id] <= worlds[n].forwarded[id]
    ensures worlds[n].daemon.Listening? ==> Clear(worlds[n])
  {
    InvRun(worlds, steps, n);
  }

  // -------------------------------------------------------------- a real run

  ghost predicate Reachable(w: World) {
    exists worlds, steps :: IsRun(worlds, steps) && worlds[|steps|] == w
  }

  lemma Reach(w: World, v: World, step: Step)
    requires Reachable(w) && Next(w, v, step)
    ensures Reachable(v)
  {
    var worlds, steps :| IsRun(worlds, steps) && worlds[|steps|] == w;
    hide Next;
    assert IsRun(worlds + [v], steps + [step]);
  }

  lemma ReachStart()
    ensures Reachable(Start)
  {
    assert IsRun([Start], []);
  }

  lemma Asks(id: Id) returns (w: World)
    ensures Reachable(w) && w == Start.(calls := map[id := Waiting], conns := map[id := Conn(Pending, [], false)])
  {
    hide Reachable, DaemonStep, HelperStep;
    ReachStart();
    var a := Calls(Start, id, Preparing);
    Reach(Start, a, Begin(id));
    w := Calls(a, id, Waiting).(conns := a.conns[id := Conn(Pending, [], false)]);
    Reach(a, w, Send(id));
  }

  lemma IsAdmitted(id: Id) returns (w: World)
    ensures Reachable(w)
    ensures w == Start.(calls := map[id := Waiting], conns := map[id := Conn(Open, [], false)], daemon := Admitted(id))
  {
    hide Reachable, Caller, HelperStep;
    w := Asks(id);
    var c := w.(daemon := Serving(id), conns := w.conns[id := Conn(Open, [], false)]);
    Reach(w, c, Accept(id));
    w := c.(daemon := Admitted(id));
    Reach(c, w, Admit);
  }

  lemma IsForwarded(id: Id) returns (w: World)
    ensures Reachable(w)
    ensures w == Start.(calls := map[id := Waiting], conns := map[id := Conn(Open, [Dispatched(id)], true)],
                        daemon := Forwarded(id), toHelper := [id], forwarded := multiset{id})
  {
    hide Reachable, Caller, HelperStep;
    w := IsAdmitted(id);
    assert [] + [Dispatched(id)] == [Dispatched(id)] && [] + [id] == [id] && multiset{} + multiset{id} == multiset{id};
    var e := w.(daemon := Acking(id), conns := w.conns[id := Conn(Open, [Dispatched(id)], true)]);
    Reach(w, e, Acknowledge);
    w := e.(daemon := Forwarded(id), toHelper := [id], forwarded := multiset{id});
    Reach(e, w, Forward);
  }

  lemma IsExecuted(id: Id) returns (w: World)
    ensures Reachable(w)
    ensures w == Start.(calls := map[id := Waiting], conns := map[id := Conn(Open, [Dispatched(id)], true)], daemon := Forwarded(id),
                        forwarded := multiset{id}, executed := multiset{id}, fromHelper := [Reply(id, id)])
  {
    hide Reachable, Caller, DaemonStep;
    w := IsForwarded(id);
    assert [id][1..] == [];
    var h := w.(running := Some(id), toHelper := []);
    Reach(w, h, HelperTakes);
    w := h.(running := None, fromHelper := [] + [Reply(id, id)], executed := multiset{} + multiset{id});
    Reach(h, w, HelperAnswers(true));
  }

  /** Results do arrive: a run in which a call is admitted, executed and answered. */
  lemma ResultHappens(id: Id) returns (w: World)
    ensures Reachable(w) && At(w, id, Finished(Returned(id))) && w.daemon == Listening
  {
    hide Reachable, HelperStep;
    w := IsExecuted(id);
    assert [Reply(id, id)][1..] == [] && [Dispatched(id)][1..] == [] && [] + [Reply(id, id)] == [Reply(id, id)];
    var g := Calls(w, id, Progress.Acknowledged).(conns := w.conns[id := Conn(Open, [], true)]);
    Reach(w, g, Receive(id));
    var j := g.(fromHelper := [], conns := g.conns[id := Conn(Closed, [Reply(id, id)], true)], daemon := Listening);
    assert j == Hangup(Post(g.(fromHelper := []), id, Reply(id, id)), id).(daemon := Listening);
    Reach(g, j, Collect(true));
    w := Calls(j, id, Finished(Returned(id))).(conns := j.conns[id := Conn(Closed, [], true)]);
    Reach(j, w, Receive(id));
  }
}
