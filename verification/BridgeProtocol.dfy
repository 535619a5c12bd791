/** One bridge session: the dispatch thread and the worker threads it spawned,
    interleaved at every statement that touches shared state or emits an event.
    `emit`, telemetry and `prepare_scan` are total, transport failures are exceptions,
    and transport callbacks fire only during the transport call. */
module BridgeProtocol {
  import opened Wrappers
  import opened BridgeCore

  // -- states -------------------------------------------------------------------

  datatype Phase =
    | Calling        // preview, solve_exposure or start_scan is in flight
    | Faulted        // a scan ran out of retries and reports the frame
    | Halting        // a scan's anomaly eject is in flight
    | Reporting      // a scan reports failed frames or the anomaly
    | Concluding     // a scan is about to mark its job terminal
    | DroppingFlag
    | ExitingLane
    | Announcing     // about to emit the terminal event
    | Clearing       // about to clear the gate
    | Returning      // the gate is clear, the thread not yet gone
    | Gone

  datatype Worker = Worker(kind: Kind, phase: Phase)

  datatype Dispatch =
    | Ready
    | Ejecting
    | EjectDroppingFlag(ejected: bool)
    | EjectExitingLane(ejected: bool)
    | Closing                          // device.close: close_device is in flight
    | JoiningMotion(timed: bool)       // shutdown; untimed at end of input
    | JoiningJob(timed: bool)
    | ShutdownClosing                  // shutdown: close_device is in flight
    | Exited

  /** What an outside observer sees, with the lane's state at each worker event. */
  datatype Obs =
    | OpAccepted(op: OpId, kind: Kind)
    | EjectAccepted
    | CloseAccepted
    | Emitted(op: OpId, terminal: bool, laneHeld: bool, lock: Option<LaneOwner>)

  datatype State = State(session: Session, workers: seq<Worker>, dispatch: Dispatch, trace: seq<Obs>)

  const INITIAL := State(NEW_SESSION, [], Ready, [])

  // -- actions ------------------------------------------------------------------

  datatype CallOutcome = Success | Failure(lost: bool) | RetriesExhausted

  datatype Action =
    // dispatch thread
    | OpenDevice
    | RequestMotion(kind: Kind, armed: bool)
    | RequestEject(armed: bool)
    | EjectReturns(ejected: bool)
    | EjectContinues
    | RequestClose
    | CloseReturns
    | RequestShutdown(timed: bool)
    | JoinReturns
    | JoinTimesOut
    | FilmLost                         // a status poll retires the preview claim
    | ManualFrames                     // manual placement re-arms it
    // worker `op`
    | Callback(op: OpId)
    | CallEnds(op: OpId, outcome: CallOutcome)
    | Report(op: OpId)
    | Advance(op: OpId)
    // another process
    | ExternalTakes
    | ExternalReleases

  predicate ThreadDone(s: State, o: Option<OpId>) {
    o.None? || (o.value < |s.workers| && s.workers[o.value].phase.Gone?)
  }

  /** The condition a joining shutdown waits for. */
  predicate JoinDone(s: State) {
    match s.dispatch
    case JoiningMotion(_) => ThreadDone(s, s.session.motionOp)
    case JoiningJob(_) => s.session.lastJob.Some? && ThreadDone(s, Some(s.session.lastJob.value.op))
    case _ => false
  }

  predicate Enabled(s: State, a: Action) {
    match a
    case OpenDevice => s.dispatch.Ready?
    case RequestMotion(_, _) => s.dispatch.Ready?
    case RequestEject(_) => s.dispatch.Ready?
    case EjectReturns(_) => s.dispatch.Ejecting?
    case EjectContinues => s.dispatch.EjectDroppingFlag? || s.dispatch.EjectExitingLane?
    case RequestClose => s.dispatch.Ready?
    case CloseReturns => s.dispatch.Closing? || s.dispatch.ShutdownClosing?
    case RequestShutdown(_) => s.dispatch.Ready?
    case JoinReturns => JoinDone(s)
    case JoinTimesOut =>
      (s.dispatch.JoiningMotion? || s.dispatch.JoiningJob?) && s.dispatch.timed && !JoinDone(s)
    case FilmLost => s.dispatch.Ready?
    case ManualFrames => s.dispatch.Ready?
    case Callback(op) => op < |s.workers| && s.workers[op].phase.Calling? && !s.workers[op].kind.Solve?
    case CallEnds(op, outcome) =>
      && op < |s.workers|
      && ((s.workers[op].phase.Calling? && (outcome.RetriesExhausted? ==> s.workers[op].kind.Scan?))
          || s.workers[op].phase.Halting?)
    case Report(op) =>
      && op < |s.workers| && s.workers[op].kind.Scan?
      && s.workers[op].phase in {Faulted, Reporting, Announcing}
    case Advance(op) =>
      op < |s.workers| && !s.workers[op].phase.Calling? && !s.workers[op].phase.Halting? && !s.workers[op].phase.Gone?
    case ExternalTakes => s.session.lock.None?
    case ExternalReleases => s.session.lock == Some(External)
  }

  function Emit(s: State, op: OpId, terminal: bool): State {
    s.(trace := s.trace + [Emitted(op, terminal, s.session.laneHeld, s.session.lock)])
  }

  function Move(s: State, op: OpId, phase: Phase): State
    requires op < |s.workers|
  {
    s.(workers := s.workers[op := s.workers[op].(phase := phase)])
  }

  /** The transport call of worker `op` came back. */
  function CallEndsStep(s: State, op: OpId, outcome: CallOutcome): State
    requires op < |s.workers|
  {
    var w := s.workers[op];
    if w.phase.Halting? then Move(s, op, Reporting)
    else
      match outcome
      case RetriesExhausted => Move(s, op, Faulted)
      case Success =>
        Move(s.(session := CallReturned(s.session, w.kind, true, false)), op,
             if w.kind.Scan? then Reporting else DroppingFlag)
      case Failure(lost) =>
        Move(s.(session := CallReturned(s.session, w.kind, false, lost)), op,
             if w.kind.Scan? then Reporting else DroppingFlag)
  }

  function AdvanceStep(s: State, op: OpId): State
    requires op < |s.workers|
  {
    match s.workers[op].phase
    case Faulted => Move(s, op, Halting)
    case Reporting => Move(s, op, Concluding)
    case Concluding => Move(s.(session := MarkTerminal(s.session)), op, DroppingFlag)
    case DroppingFlag => Move(s.(session := DropLaneFlag(s.session)), op, ExitingLane)
    case ExitingLane => Move(s.(session := ExitLane(s.session)), op, Announcing)
    case Announcing => Move(Emit(s, op, true), op, Clearing)
    case Clearing => Move(s.(session := ClearGate(s.session)), op, Returning)
    case Returning => Move(s, op, Gone)
    case _ => s
  }

  /** The last part of shutdown: nothing is running any more. */
  function ShutdownStep(s: State): State {
    s.(dispatch := if s.session.deviceOpen then ShutdownClosing else Exited)
  }

  function JoinStep(s: State): State {
    match s.dispatch
    case JoiningMotion(timed) =>
      if JobRunning(s.session) then s.(dispatch := JoiningJob(timed)) else ShutdownStep(s)
    case JoiningJob(_) =>
      // A joined job that never became terminal is refused.
      if JobRunning(s.session) then s.(dispatch := Ready) else ShutdownStep(s)
    case _ => s
  }

  function Apply(s: State, a: Action): State
    requires Enabled(s, a)
  {
    match a
    case OpenDevice => s.(session := s.session.(deviceOpen := true))
    case RequestMotion(kind, armed) =>
      var op := |s.workers|;
      var (session, answer) := AcceptMotion(s.session, kind, armed, op);
      if answer.Accepted? then
        s.(session := session, workers := s.workers + [Worker(kind, Calling)],
           trace := s.trace + [OpAccepted(op, kind)])
      else s
    case RequestEject(armed) =>
      var (session, answer) := BeginEject(s.session, armed);
      if answer.Accepted? then
        s.(session := session, dispatch := Ejecting, trace := s.trace + [EjectAccepted])
      else s
    case EjectReturns(ejected) => s.(dispatch := EjectDroppingFlag(ejected))
    case EjectContinues =>
      if s.dispatch.EjectDroppingFlag? then
        s.(session := DropLaneFlag(s.session), dispatch := EjectExitingLane(s.dispatch.ejected))
      else s.(session := EndEject(ExitLane(s.session), s.dispatch.ejected), dispatch := Ready)
    case RequestClose =>
      if CloseGate(s.session).Accepted? then
        s.(dispatch := Closing, trace := s.trace + [CloseAccepted])
      else s
    case CloseReturns =>
      s.(session := Disconnect(s.session), dispatch := if s.dispatch.Closing? then Ready else Exited)
    case RequestShutdown(timed) => s.(dispatch := JoiningMotion(timed))
    case JoinReturns => JoinStep(s)
    case JoinTimesOut => s.(dispatch := Ready)
    case FilmLost => s.(session := s.session.(previewed := false))
    case ManualFrames => s.(session := RearmPreview(s.session).0)
    case Callback(op) => Emit(s, op, false)
    case CallEnds(op, outcome) => CallEndsStep(s, op, outcome)
    case Report(op) => Emit(s, op, false)
    case Advance(op) => AdvanceStep(s, op)
    case ExternalTakes => s.(session := s.session.(lock := Some(External)))
    case ExternalReleases => s.(session := s.session.(lock := None))
  }
}
