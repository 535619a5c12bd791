/** The session fields of `BridgeService` and the decisions its dispatch thread and its
    workers make on them.  `BridgeObjects` proves that the service's methods compute
    these functions; `BridgeProtocol` interleaves them. */
module BridgeCore {
  import opened Wrappers

  type OpId = nat

  datatype Kind = Preview | Solve | Scan

  /** Who holds the advisory lane lock: a motion operation, the dispatch thread's own
      eject, or another process. */
  datatype LaneOwner = ByOp(op: OpId) | ByEject | External

  datatype Job = Job(op: OpId, terminal: bool)

  /** `lock` is the flock behind `HardwareLane`; the other fields are the service's. */
  datatype Session = Session(
    deviceOpen: bool,
    previewed: bool,
    laneHeld: bool,
    motionOpActive: bool,
    lastJob: Option<Job>,
    motionOp: Option<OpId>,
    lock: Option<LaneOwner>)

  const NEW_SESSION := Session(false, false, false, false, None, None, None)

  datatype Answer = Accepted | NotConnected | NoPreview | NotArmed | LaneBusy

  /** The gates of `roll.preview`, `roll.solveExposure` and `scan.start`, in their order. */
  function MotionGate(s: Session, kind: Kind, armed: bool): Answer {
    if !s.deviceOpen then NotConnected
    else if !kind.Preview? && !s.previewed then NoPreview
    else if !armed then NotArmed
    else if s.motionOpActive then LaneBusy
    else if s.lock.Some? then LaneBusy
    else Accepted
  }

  function AcceptMotion(s: Session, kind: Kind, armed: bool, op: OpId): (Session, Answer) {
    var answer := MotionGate(s, kind, armed);
    if !answer.Accepted? then (s, answer)
    else
      var s' := s.(lock := Some(ByOp(op)), laneHeld := true, motionOpActive := true);
      (if kind.Scan? then s'.(lastJob := Some(Job(op, false))) else s'.(motionOp := Some(op)), answer)
  }

  function EjectGate(s: Session, armed: bool): Answer {
    if !s.deviceOpen then NotConnected
    else if !armed then NotArmed
    else if s.motionOpActive then LaneBusy
    else if s.lock.Some? then LaneBusy
    else Accepted
  }

  function BeginEject(s: Session, armed: bool): (Session, Answer) {
    var answer := EjectGate(s, armed);
    if answer.Accepted? then (s.(lock := Some(ByEject), laneHeld := true), answer) else (s, answer)
  }

  /** The flag goes down inside the lane's block, the lock with its exit. */
  function DropLaneFlag(s: Session): Session {
    s.(laneHeld := false)
  }

  function ExitLane(s: Session): Session {
    s.(lock := None)
  }

  function EndEject(s: Session, ejected: bool): Session {
    if ejected then s.(previewed := false) else s
  }

  predicate JobRunning(s: Session) {
    s.lastJob.Some? && !s.lastJob.value.terminal
  }

  function CloseGate(s: Session): Answer {
    if JobRunning(s) then LaneBusy
    else if s.motionOpActive then LaneBusy
    else if !s.deviceOpen then NotConnected
    else Accepted
  }

  function Disconnect(s: Session): Session {
    s.(deviceOpen := false, previewed := false)
  }

  /** `roll.manualFrames` re-arms the preview claim, outside any motion operation. */
  function RearmPreview(s: Session): (Session, Answer) {
    if !s.deviceOpen then (s, NotConnected)
    else if s.motionOpActive then (s, LaneBusy)
    else (s.(previewed := true), Accepted)
  }

  /** What the transport's answer does to the preview claim. */
  function CallReturned(s: Session, kind: Kind, success: bool, lost: bool): Session {
    match kind
    case Preview => if success then s.(previewed := true) else s
    case Solve => if !success && lost then s.(previewed := false) else s
    case Scan => if !success && lost then s.(previewed := false) else s
  }

  function MarkTerminal(s: Session): Session {
    if s.lastJob.Some? then s.(lastJob := Some(s.lastJob.value.(terminal := true))) else s
  }

  function ClearGate(s: Session): Session {
    s.(motionOpActive := false)
  }
}
