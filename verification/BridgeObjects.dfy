/** `BridgeService` with its own fields.  The first methods are dispatch decisions and
    worker statements, proved to compute the functions of `BridgeCore`; the last ones are
    whole operations, from the request to the cleared gate, composed of them and proved
    to be runs of `BridgeProtocol`. */
module BridgeObjects {
  import opened Wrappers
  import opened BridgeCore
  import opened BridgeProtocol
  import opened BridgeSafety

  // -- runs of one worker ---------------------------------------------------------------

  predicate ActionOf(a: Action, op: OpId) {
    match a
    case Callback(o) => o == op
    case CallEnds(o, _) => o == op
    case Report(o) => o == op
    case Advance(o) => o == op
    case _ => false
  }

  /** Worker `op` alone takes the session from `s` to `s'`. */
  ghost predicate Reaches(s: State, op: OpId, actions: seq<Action>, s': State)
    decreases |actions|
  {
    if actions == [] then s' == s
    else
      && ActionOf(actions[0], op)
      && Enabled(s, actions[0])
      && Reaches(Apply(s, actions[0]), op, actions[1..], s')
  }

  lemma {:induction false} ReachesOn(s: State, op: OpId, actions: seq<Action>, s': State, more: seq<Action>, s'': State)
    requires Reaches(s, op, actions, s') && Reaches(s', op, more, s'')
    ensures Reaches(s, op, actions + more, s'')
    decreases |actions|
  {
    if actions == [] {
      assert actions + more == more;
    } else {
      ReachesOn(Apply(s, actions[0]), op, actions[1..], s', more, s'');
      assert (actions + more)[1..] == actions[1..] + more;
    }
  }

  /** What the transport does during one operation: how often it calls back, how the call
      ends, and how many events a scan reports before its anomaly eject, after it, and
      once its lane is free. */
  datatype Behaviour = Behaviour(callbacks: nat, outcome: CallOutcome, faults: nat, failures: nat, errors: nat)

  /** Only scans retry and report, and `solve_exposure` never calls back. */
  predicate Fitting(kind: Kind, w: Behaviour) {
    && (!kind.Scan? ==> !w.outcome.RetriesExhausted? && w.errors == 0)
    && (kind.Solve? ==> w.callbacks == 0)
  }

  /** Events of one operation that are not its last. */
  predicate Ongoing(op: OpId, events: seq<Obs>) {
    forall i | 0 <= i < |events| :: events[i].Emitted? && events[i].op == op && !events[i].terminal
  }

  /** The events of one operation: one terminal event, its last, with the lane free. */
  ghost predicate Block(op: OpId, events: seq<Obs>) {
    exists before :: Ongoing(op, before) && events == before + [Emitted(op, true, false, None)]
  }

  /** A worker on the transport is the last one, and its operation holds everything. */
  lemma RunningIsLast(s: State, op: OpId)
    requires Inv(s) && op < |s.workers| && s.workers[op].phase.Calling?
    ensures op == |s.workers| - 1 && s.session.laneHeld && s.session.lock == Some(ByOp(op)) && s.session.motionOpActive
    ensures s.workers[op].kind.Scan? ==> s.session.lastJob == Some(Job(op, false))
  {
  }

  /** How worker `op` has got from one state to another, and what it has sent on the way. */
  datatype Way = Way(actions: seq<Action>, end: State, sent: seq<Obs>)

  ghost predicate Leads(s: State, op: OpId, y: Way) {
    && Reaches(s, op, y.actions, y.end) && Inv(y.end)
    && y.end.trace == s.trace + y.sent && Ongoing(op, y.sent)
  }

  lemma Here(s: State, op: OpId) returns (y: Way)
    requires Inv(s)
    ensures y == Way([], s, []) && Leads(s, op, y)
  {
    y := Way([], s, []);
  }

  lemma Onwards(s: State, op: OpId, y: Way, a: Action)
    requires Reaches(s, op, y.actions, y.end) && Inv(y.end) && ActionOf(a, op) && Enabled(y.end, a)
    ensures Reaches(s, op, y.actions + [a], Apply(y.end, a)) && Inv(Apply(y.end, a))
  {
    assert Reaches(y.end, op, [a], Apply(y.end, a));
    ReachesOn(s, op, y.actions, y.end, [a], Apply(y.end, a));
    StepKeepsInv(y.end, a);
  }

  /** One more action of the worker, other than its last word. */
  lemma Silently(s: State, op: OpId, y: Way, a: Action) returns (y': Way)
    requires Leads(s, op, y) && ActionOf(a, op) && Enabled(y.end, a) && Observed(y.end, a).None?
    ensures y' == Way(y.actions + [a], Apply(y.end, a), y.sent) && Leads(s, op, y')
  {
    Onwards(s, op, y, a);
    StepObserves(y.end, a);
    y' := Way(y.actions + [a], Apply(y.end, a), y.sent);
  }

  lemma Sending(s: State, op: OpId, y: Way, a: Action) returns (y': Way)
    requires Leads(s, op, y) && (a == Callback(op) || a == Report(op)) && Enabled(y.end, a)
    ensures var o := Emitted(op, false, y.end.session.laneHeld, y.end.session.lock);
      && y' == Way(y.actions + [a], Emit(y.end, op, false), y.sent + [o])
      && y'.end.trace == y.end.trace + [o] && Leads(s, op, y')
  {
    Onwards(s, op, y, a);
    var o := Emitted(op, false, y.end.session.laneHeld, y.end.session.lock);
    y' := Way(y.actions + [a], Emit(y.end, op, false), y.sent + [o]);
    assert s.trace + y.sent + [o] == s.trace + (y.sent + [o]);
  }

  lemma NoActions(s: State, op: OpId)
    ensures Reaches(s, op, [], s)
  {
  }

  /** An accepted motion request finds no job running. */
  lemma NothingRuns(s: State, kind: Kind, armed: bool)
    requires Inv(s) && MotionGate(s.session, kind, armed).Accepted?
    ensures !JobRunning(s.session)
  {
  }

  lemma EjectEnds(s: State, ejected: bool) returns (s': State)
    requires Inv(s) && s.dispatch.Ejecting?
    ensures Inv(s') && s' == s.(session := EndEject(ExitLane(DropLaneFlag(s.session)), ejected), dispatch := Ready)
  {
    StepKeepsInv(s, EjectReturns(ejected));
    var s1 := Apply(s, EjectReturns(ejected));
    StepKeepsInv(s1, EjectContinues);
    var s2 := Apply(s1, EjectContinues);
    StepKeepsInv(s2, EjectContinues);
    s' := Apply(s2, EjectContinues);
  }

  lemma SentIsOngoing(s: State, op: OpId, y: Way)
    requires Leads(s, op, y)
    ensures Block(op, y.sent + [Emitted(op, true, false, None)])
  {
  }

  predicate ClaimAfter(kind: Kind, outcome: CallOutcome, previewed: bool) {
    match outcome
    case Success => previewed || kind.Preview?
    case Failure(lost) => previewed && (kind.Preview? || !lost)
    case RetriesExhausted => previewed
  }

  /** The lane's lock file as the kernel keeps it: one exclusive owner. */
  class LaneLock {
    var owner: Option<LaneOwner>

    constructor ()
      ensures owner == None
    {
      owner := None;
    }

    /** `flock(LOCK_EX | LOCK_NB)` on a fresh descriptor. */
    method TryLock(o: LaneOwner) returns (got: bool)
      modifies this
      ensures got == old(owner).None?
      ensures owner == if got then Some(o) else old(owner)
    {
      if owner != None { return false; }
      owner := Some(o);
      return true;
    }

    method Unlock()
      modifies this
      ensures owner == None
    {
      owner := None;
    }
  }

  class BridgeService {
    const lane: LaneLock
    var deviceOpen: bool
    var previewed: bool
    var laneHeld: bool
    var motionOpActive: bool
    var lastJob: Option<Job>
    var motionOp: Option<OpId>
    var events: seq<Obs>       // what `emit` has sent

    function View(): Session
      reads this, lane
    {
      Session(deviceOpen, previewed, laneHeld, motionOpActive, lastJob, motionOp, lane.owner)
    }

    constructor (l: LaneLock)
      requires l.owner == None
      ensures View() == NEW_SESSION && lane == l && events == []
    {
      lane, events := l, [];
      deviceOpen, previewed, laneHeld, motionOpActive := false, false, false, false;
      lastJob, motionOp := None, None;
    }

    /** The accepting part of `_handle_roll_preview`. */
    method AcceptPreview(armed: bool, op: OpId) returns (answer: Answer)
      modifies this, lane
      ensures events == old(events)
      ensures (View(), answer) == AcceptMotion(old(View()), Preview, armed, op)
      ensures answer ==
        if !old(deviceOpen) then NotConnected
        else if !armed then NotArmed
        else if old(motionOpActive) || old(lane.owner).Some? then LaneBusy
        else Accepted
      ensures answer.Accepted? ==> laneHeld && motionOpActive && lane.owner == Some(ByOp(op))
    {
      if !deviceOpen { return NotConnected; }
      if !armed { return NotArmed; }
      if motionOpActive { return LaneBusy; }
      var got := lane.TryLock(ByOp(op));
      if !got { return LaneBusy; }
      laneHeld := true;
      motionOpActive := true;
      motionOp := Some(op);
      return Accepted;
    }

    /** The accepting part of `_handle_solve_exposure`. */
    method AcceptSolve(armed: bool, op: OpId) returns (answer: Answer)
      modifies this, lane
      ensures events == old(events)
      ensures (View(), answer) == AcceptMotion(old(View()), Solve, armed, op)
      ensures answer ==
        if !old(deviceOpen) then NotConnected
        else if !old(previewed) then NoPreview
        else if !armed then NotArmed
        else if old(motionOpActive) || old(lane.owner).Some? then LaneBusy
        else Accepted
      ensures answer.Accepted? ==> laneHeld && motionOpActive && lane.owner == Some(ByOp(op))
    {
      if !deviceOpen { return NotConnected; }
      if !previewed { return NoPreview; }
      if !armed { return NotArmed; }
      if motionOpActive { return LaneBusy; }
      var got := lane.TryLock(ByOp(op));
      if !got { return LaneBusy; }
      laneHeld := true;
      motionOpActive := true;
      motionOp := Some(op);
      return Accepted;
    }

    /** The accepting part of `_handle_scan_start`. */
    method AcceptScan(armed: bool, op: OpId) returns (answer: Answer)
      modifies this, lane
      ensures events == old(events)
      ensures (View(), answer) == AcceptMotion(old(View()), Scan, armed, op)
      ensures answer ==
        if !old(deviceOpen) then NotConnected
        else if !old(previewed) then NoPreview
        else if !armed then NotArmed
        else if old(motionOpActive) || old(lane.owner).Some? then LaneBusy
        else Accepted
      ensures answer.Accepted? ==> laneHeld && motionOpActive && lane.owner == Some(ByOp(op))
    {
      if !deviceOpen { return NotConnected; }
      if !previewed { return NoPreview; }
      if !armed { return NotArmed; }
      if motionOpActive { return LaneBusy; }
      var got := lane.TryLock(ByOp(op));
      if !got { return LaneBusy; }
      laneHeld := true;
      motionOpActive := true;
      lastJob := Some(Job(op, false));
      return Accepted;
    }

    method BeginDeviceEject(armed: bool) returns (answer: Answer)
      modifies this, lane
      ensures events == old(events)
      ensures (View(), answer) == BeginEject(old(View()), armed)
      ensures answer ==
        if !old(deviceOpen) then NotConnected
        else if !armed then NotArmed
        else if old(motionOpActive) || old(lane.owner).Some? then LaneBusy
        else Accepted
      ensures answer.Accepted? ==> laneHeld && lane.owner == Some(ByEject) && motionOpActive == old(motionOpActive)
    {
      if !deviceOpen { return NotConnected; }
      if !armed { return NotArmed; }
      if motionOpActive { return LaneBusy; }
      var got := lane.TryLock(ByEject);
      if !got { return LaneBusy; }
      laneHeld := true;
      return Accepted;
    }

    method EndDeviceEject(ejected: bool)
      modifies this
      ensures events == old(events)
      ensures View() == EndEject(old(View()), ejected)
    {
      if ejected {
        previewed := false;
      }
    }

    method CheckClose() returns (answer: Answer)
      ensures answer == CloseGate(View())
      ensures answer ==
        if (lastJob.Some? && !lastJob.value.terminal) || motionOpActive then LaneBusy
        else if !deviceOpen then NotConnected
        else Accepted
    {
      if lastJob.Some? && !lastJob.value.terminal { return LaneBusy; }
      if motionOpActive { return LaneBusy; }
      if !deviceOpen { return NotConnected; }
      return Accepted;
    }

    /** `roll.manualFrames` whose transport call succeeded. */
    method ManualFramesPlaced() returns (answer: Answer)
      modifies this
      ensures events == old(events)
      ensures (View(), answer) == RearmPreview(old(View()))
      ensures answer.Accepted? <==> old(deviceOpen) && !old(motionOpActive)
      ensures previewed <==> old(previewed) || answer.Accepted?
    {
      if !deviceOpen { return NotConnected; }
      if motionOpActive { return LaneBusy; }
      previewed := true;
      return Accepted;
    }

    method Disconnected()
      modifies this
      ensures events == old(events)
      ensures View() == Disconnect(old(View()))
    {
      deviceOpen := false;
      previewed := false;
    }

    // -- worker statements ----------------------------------------------------------

    method TransportReturned(kind: Kind, success: bool, lost: bool)
      modifies this
      ensures events == old(events)
      ensures View() == CallReturned(old(View()), kind, success, lost)
    {
      if kind.Preview? {
        if success { previewed := true; }
      } else if !success && lost {
        previewed := false;
      }
    }

    method ConcludeJob()
      modifies this
      ensures events == old(events)
      ensures View() == MarkTerminal(old(View()))
    {
      if lastJob.Some? {
        lastJob := Some(lastJob.value.(terminal := true));
      }
    }

    method LowerLaneFlag()
      modifies this
      ensures events == old(events)
      ensures View() == DropLaneFlag(old(View()))
    {
      laneHeld := false;
    }

    method LeaveLane()
      modifies lane
      ensures View() == ExitLane(old(View()))
    {
      lane.Unlock();
    }

    method LiftGate()
      modifies this
      ensures events == old(events)
      ensures View() == ClearGate(old(View()))
    {
      motionOpActive := false;
    }

    method Emit(op: OpId, terminal: bool)
      modifies this
      ensures View() == old(View())
      ensures events == old(events) + [Emitted(op, terminal, laneHeld, lane.owner)]
    {
      events := events + [Emitted(op, terminal, laneHeld, lane.owner)];
    }

    // -- whole operations ------------------------------------------------------------

    /** The objects are where the protocol is. */
    ghost predicate Shows(s: State)
      reads this, lane
    {
      View() == s.session && events == s.trace && Inv(s)
    }

    /** Some events that are not the last, all at one place of the worker. */
    method EmitSome(op: OpId, n: nat, a: Action, ghost s: State, ghost y: Way) returns (ghost y': Way)
      requires Shows(y.end) && Leads(s, op, y) && (a == Callback(op) || a == Report(op)) && Enabled(y.end, a)
      modifies this
      ensures Shows(y'.end) && Leads(s, op, y') && y'.end == y.end.(trace := events)
    {
      hide Inv, Leads;
      y' := y;
      for i := 0 to n
        invariant Shows(y'.end) && Leads(s, op, y') && y'.end == y.end.(trace := events)
      {
        Emit(op, false);
        y' := Sending(s, op, y', a);
      }
    }

    /** The worker's transport call with its callbacks, up to its return. */
    method CallTransport(kind: Kind, op: OpId, w: Behaviour, ghost s: State) returns (ghost y: Way)
      requires Shows(s) && op < |s.workers| && s.workers[op] == Worker(kind, Calling) && Fitting(kind, w)
      modifies this
      ensures Shows(y.end) && Leads(s, op, y)
      ensures y.end == CallEndsStep(s.(trace := events), op, w.outcome)
      ensures View() == old(View()).(previewed := ClaimAfter(kind, w.outcome, old(previewed)))
    {
      hide Inv, Leads;
      y := Here(s, op);
      if !kind.Solve? {
        y := EmitSome(op, w.callbacks, Callback(op), s, y);
      }
      if !w.outcome.RetriesExhausted? {
        TransportReturned(kind, w.outcome.Success?, w.outcome.Failure? && w.outcome.lost);
      }
      y := Silently(s, op, y, CallEnds(op, w.outcome));
    }

    /** A scan that ran out of retries reports the frame and ejects the film. */
    method HaltAnomaly(op: OpId, faults: nat, ghost s: State, ghost y: Way) returns (ghost y': Way)
      requires Shows(y.end) && Leads(s, op, y) && op < |y.end.workers| && y.end.workers[op] == Worker(Scan, Faulted)
      modifies this
      ensures Shows(y'.end) && Leads(s, op, y') && View() == old(View())
      ensures y'.end.workers == y.end.workers[op := Worker(Scan, Reporting)] && y'.end.dispatch == y.end.dispatch
    {
      hide Inv, Leads;
      y' := EmitSome(op, faults, Report(op), s, y);
      y' := Silently(s, op, y', Advance(op));
      y' := Silently(s, op, y', CallEnds(op, Success));
    }

    /** The rest of a scan's report, and the end of its job. */
    method ConcludeScan(op: OpId, failures: nat, ghost s: State, ghost y: Way) returns (ghost y': Way)
      requires Shows(y.end) && Leads(s, op, y) && op < |y.end.workers| && y.end.workers[op] == Worker(Scan, Reporting)
      modifies this
      ensures Shows(y'.end) && Leads(s, op, y') && View() == MarkTerminal(old(View()))
      ensures y'.end.workers == y.end.workers[op := Worker(Scan, DroppingFlag)] && y'.end.dispatch == y.end.dispatch
    {
      hide Inv, Leads;
      y' := EmitSome(op, failures, Report(op), s, y);
      y' := Silently(s, op, y', Advance(op));
      ConcludeJob();
      y' := Silently(s, op, y', Advance(op));
    }

    /** The worker's `finally`, up to its last word: the flag goes down, then the lock. */
    method LeaveOperation(kind: Kind, op: OpId, errors: nat, ghost s: State, ghost y: Way) returns (ghost y': Way)
      requires Shows(y.end) && Leads(s, op, y) && op < |y.end.workers| && y.end.workers[op] == Worker(kind, DroppingFlag)
      requires !kind.Scan? ==> errors == 0
      modifies this, lane
      ensures Shows(y'.end) && Leads(s, op, y') && View() == old(View()).(laneHeld := false, lock := None)
      ensures y'.end.workers == y.end.workers[op := Worker(kind, Announcing)] && y'.end.dispatch == y.end.dispatch
    {
      hide Inv, Leads;
      LowerLaneFlag();
      y' := Silently(s, op, y, Advance(op));
      LeaveLane();
      y' := Silently(s, op, y', Advance(op));
      if kind.Scan? {
        y' := EmitSome(op, errors, Report(op), s, y');
      }
    }

    /** Its last word, and the gate. */
    method Announce(op: OpId, ghost s: State, ghost y: Way) returns (ghost actions: seq<Action>, ghost s': State)
      requires Shows(y.end) && Leads(s, op, y) && op < |y.end.workers| && y.end.workers[op].phase.Announcing?
      requires !laneHeld && lane.owner == None
      modifies this
      ensures Shows(s') && Reaches(s, op, actions, s') && View() == old(View()).(motionOpActive := false)
      ensures s'.workers == y.end.workers[op := y.end.workers[op].(phase := Returning)] && s'.dispatch == y.end.dispatch
      ensures events == s.trace + (y.sent + [Emitted(op, true, false, None)])
    {
      hide Inv;
      Emit(op, true);
      assert s.trace + y.sent + [Emitted(op, true, false, None)] == s.trace + (y.sent + [Emitted(op, true, false, None)]);
      Onwards(s, op, y, Advance(op));
      var y1 := Way(y.actions + [Advance(op)], Apply(y.end, Advance(op)), []);
      LiftGate();
      Onwards(s, op, y1, Advance(op));
      actions, s' := y1.actions + [Advance(op)], Apply(y1.end, Advance(op));
    }

    /** The worker's `try`: everything up to the last use of the transport. */
    method RunTransport(kind: Kind, op: OpId, w: Behaviour, ghost s: State) returns (ghost y: Way)
      requires Shows(s) && op < |s.workers| && s.workers[op] == Worker(kind, Calling) && Fitting(kind, w)
      modifies this
      ensures Shows(y.end) && Leads(s, op, y)
      ensures y.end.workers == s.workers[op := Worker(kind, DroppingFlag)] && y.end.dispatch == s.dispatch
      ensures var before := old(View()).(previewed := ClaimAfter(kind, w.outcome, old(previewed)));
        View() == if kind.Scan? then MarkTerminal(before) else before
    {
      hide Inv, Leads, Reaches;
      y := CallTransport(kind, op, w, s);
      if kind.Scan? {
        if w.outcome.RetriesExhausted? { y := HaltAnomaly(op, w.faults, s, y); }
        y := ConcludeScan(op, w.failures, s, y);
      }
    }

    /** Its `finally`: lane, last word, gate. */
    method RunFinally(kind: Kind, op: OpId, errors: nat, ghost s: State, ghost y: Way)
      returns (ghost actions: seq<Action>, ghost s': State)
      requires Shows(y.end) && Leads(s, op, y) && op < |y.end.workers| && y.end.workers[op] == Worker(kind, DroppingFlag)
      requires !kind.Scan? ==> errors == 0
      modifies this, lane
      ensures Shows(s') && Reaches(s, op, actions, s')
      ensures s'.workers == y.end.workers[op := Worker(kind, Returning)] && s'.dispatch == y.end.dispatch
      ensures View() == old(View()).(laneHeld := false, lock := None, motionOpActive := false)
      ensures exists block :: Block(op, block) && events == s.trace + block
    {
      hide Inv, Leads, Reaches, Block;
      ghost var left := LeaveOperation(kind, op, errors, s, y);
      SentIsOngoing(s, op, left);
      actions, s' := Announce(op, s, left);
    }

    /** A whole worker, from its thread's start to the cleared gate. */
    method RunWorker(kind: Kind, op: OpId, w: Behaviour, ghost s: State) returns (ghost actions: seq<Action>, ghost s': State)
      requires Shows(s) && op < |s.workers| && s.workers[op] == Worker(kind, Calling) && Fitting(kind, w)
      modifies this, lane
      ensures Shows(s') && Reaches(s, op, actions, s')
      ensures s'.workers == s.workers[op := Worker(kind, Returning)] && s'.dispatch == s.dispatch
      ensures !laneHeld && lane.owner == None && !motionOpActive
      ensures previewed == ClaimAfter(kind, w.outcome, old(previewed)) && deviceOpen == old(deviceOpen)
      ensures lastJob == if kind.Scan? then Some(Job(op, true)) else old(lastJob)
      ensures exists block :: Block(op, block) && events == old(events) + block
    {
      RunningIsLast(s, op);
      hide Inv, Leads, Reaches, Block;
      ghost var y := RunTransport(kind, op, w, s);
      actions, s' := RunFinally(kind, op, w.errors, s, y);
    }

    method Accept(kind: Kind, armed: bool, op: OpId) returns (answer: Answer)
      modifies this, lane
      ensures events == old(events) && (View(), answer) == AcceptMotion(old(View()), kind, armed, op)
    {
      match kind
      case Preview => answer := AcceptPreview(armed, op);
      case Solve => answer := AcceptSolve(armed, op);
      case Scan => answer := AcceptScan(armed, op);
    }

    /** A motion request to its end.  A refused one changes nothing; an accepted one leaves
        lane and gate as free as it found them, with its acceptance and one block sent. */
    method Motion(kind: Kind, armed: bool, op: OpId, w: Behaviour, ghost s: State)
      returns (answer: Answer, ghost actions: seq<Action>, ghost s': State)
      requires Shows(s) && s.dispatch.Ready? && op == |s.workers| && Fitting(kind, w)
      modifies this, lane
      ensures answer ==
        if !old(deviceOpen) then NotConnected
        else if !kind.Preview? && !old(previewed) then NoPreview
        else if !armed then NotArmed
        else if old(motionOpActive) || old(lane.owner).Some? then LaneBusy
        else Accepted
      ensures Shows(s') && Reaches(Apply(s, RequestMotion(kind, armed)), op, actions, s') && s'.dispatch.Ready?
      ensures !answer.Accepted? ==> s' == s && View() == old(View()) && events == old(events)
      ensures answer.Accepted? ==>
        && !laneHeld && lane.owner == None && !motionOpActive && !JobRunning(View())
        && deviceOpen && previewed == ClaimAfter(kind, w.outcome, old(previewed))
        && s'.workers == s.workers + [Worker(kind, Returning)]
        && exists block :: Block(op, block) && events == old(events) + [OpAccepted(op, kind)] + block
    {
      hide Inv, Reaches, Block;
      answer := Accept(kind, armed, op);
      s' := Apply(s, RequestMotion(kind, armed));
      StepKeepsInv(s, RequestMotion(kind, armed));
      if !answer.Accepted? {
        actions := [];
        NoActions(s', op);
        return;
      }
      NothingRuns(s, kind, armed);
      events := events + [OpAccepted(op, kind)];
      actions, s' := RunWorker(kind, op, w, s');
    }

    /** `device.eject` to its end: the lane is free again, the gate was never touched, and
        only a confirmed eject retires the preview. */
    method Eject(armed: bool, ejected: bool, ghost s: State) returns (answer: Answer, ghost s': State)
      requires Shows(s) && s.dispatch.Ready?
      modifies this, lane
      ensures answer ==
        if !old(deviceOpen) then NotConnected
        else if !armed then NotArmed
        else if old(motionOpActive) || old(lane.owner).Some? then LaneBusy
        else Accepted
      ensures Shows(s') && s'.dispatch.Ready? && s'.workers == s.workers
      ensures !answer.Accepted? ==> s' == s
      ensures answer.Accepted? ==>
        && View() == old(View()).(laneHeld := false, lock := None, previewed := old(previewed) && !ejected)
        && events == old(events) + [EjectAccepted]
    {
      hide Inv;
      answer := BeginDeviceEject(armed);
      s' := Apply(s, RequestEject(armed));
      StepKeepsInv(s, RequestEject(armed));
      if !answer.Accepted? { return; }
      events := events + [EjectAccepted];
      LowerLaneFlag();
      LeaveLane();
      EndDeviceEject(ejected);
      s' := EjectEnds(s', ejected);
    }

    /** `device.close` to its end. */
    method CloseDevice(ghost s: State) returns (answer: Answer, ghost s': State)
      requires Shows(s) && s.dispatch.Ready?
      modifies this
      ensures answer ==
        if (old(lastJob).Some? && !old(lastJob).value.terminal) || old(motionOpActive) then LaneBusy
        else if !old(deviceOpen) then NotConnected
        else Accepted
      ensures Shows(s') && s'.dispatch.Ready? && s'.workers == s.workers
      ensures !answer.Accepted? ==> s' == s
      ensures answer.Accepted? ==> View() == old(View()).(deviceOpen := false, previewed := false)
      ensures answer.Accepted? ==> events == old(events) + [CloseAccepted]
    {
      hide Inv;
      answer := CheckClose();
      s' := Apply(s, RequestClose);
      StepKeepsInv(s, RequestClose);
      if !answer.Accepted? { return; }
      events := events + [CloseAccepted];
      Disconnected();
      StepKeepsInv(s', CloseReturns);
      s' := Apply(s', CloseReturns);
    }
  }
}
