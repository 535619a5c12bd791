/** What every interleaving of `BridgeProtocol` keeps. */
module BridgeSafety {
  import opened Wrappers
  import opened BridgeCore
  import opened BridgeProtocol

  // -- phases in order -------------------------------------------------------------

  predicate InCall(p: Phase) {
    p.Calling? || p.Halting?
  }

  /** The worker's motion is over: no transport call can follow. */
  predicate MotionOver(p: Phase) {
    !p.Calling? && !p.Faulted? && !p.Halting?
  }

  predicate Terminal(p: Phase) {
    MotionOver(p) && !p.Reporting? && !p.Concluding?
  }

  predicate LaneDropped(p: Phase) {
    Terminal(p) && !p.DroppingFlag?
  }

  predicate LaneExited(p: Phase) {
    LaneDropped(p) && !p.ExitingLane?
  }

  predicate Announced(p: Phase) {
    LaneExited(p) && !p.Announcing?
  }

  predicate Cleared(p: Phase) {
    p.Returning? || p.Gone?
  }

  // -- the observer's grammar --------------------------------------------------------

  /** Between operations, the next one being `next`; or inside the block of `op`. */
  datatype Mode = Quiet(next: OpId) | Busy(op: OpId)

  /** How one observation moves the observer; `None` is a violation. */
  function Observe(m: Mode, o: Obs): Option<Mode> {
    match o
    case OpAccepted(op, _) => if m == Quiet(op) then Some(Busy(op)) else None
    case EjectAccepted => if m.Quiet? then Some(m) else None
    case CloseAccepted => if m.Quiet? then Some(m) else None
    case Emitted(op, terminal, laneHeld, lock) =>
      if m != Busy(op) then None
      else if !terminal then Some(m)
      else if laneHeld || lock == Some(ByOp(op)) then None
      else Some(Quiet(op + 1))
  }

  function Follow(trace: seq<Obs>): Option<Mode> {
    if trace == [] then Some(Quiet(0))
    else
      var before := Follow(trace[..|trace| - 1]);
      if before.None? then None else Observe(before.value, trace[|trace| - 1])
  }

  lemma FollowSnoc(trace: seq<Obs>, o: Obs)
    ensures Follow(trace + [o]) == if Follow(trace).None? then None else Observe(Follow(trace).value, o)
  {
    assert (trace + [o])[..|trace|] == trace;
  }

  // -- the invariant -----------------------------------------------------------------

  predicate HasLast(s: State) {
    |s.workers| > 0
  }

  function Last(s: State): Worker
    requires HasLast(s)
  {
    s.workers[|s.workers| - 1]
  }

  /** No worker can still be on the transport. */
  predicate TransportIdle(s: State) {
    HasLast(s) ==> MotionOver(Last(s).phase)
  }

  ghost predicate WorkersOk(s: State) {
    && (forall i | 0 <= i < |s.workers| - 1 :: Cleared(s.workers[i].phase))
    && (forall i | 0 <= i < |s.workers| && !s.workers[i].kind.Scan? ::
          !s.workers[i].phase.Faulted? && !s.workers[i].phase.Halting?
          && !s.workers[i].phase.Reporting? && !s.workers[i].phase.Concluding?)
    && (s.session.motionOpActive <==> HasLast(s) && !Cleared(Last(s).phase))
  }

  predicate LaneOk(s: State) {
    var ejectFlag := s.dispatch.Ejecting? || s.dispatch.EjectDroppingFlag?;
    var ejectLock := ejectFlag || s.dispatch.EjectExitingLane?;
    && (s.session.laneHeld <==> ejectFlag || (HasLast(s) && !LaneDropped(Last(s).phase)))
    && (s.session.lock == Some(ByEject) <==> ejectLock)
    && (s.session.lock.Some? && s.session.lock.value.ByOp? ==>
          HasLast(s) && s.session.lock.value.op == |s.workers| - 1 && !LaneExited(Last(s).phase))
    && (HasLast(s) && !LaneExited(Last(s).phase) ==> s.session.lock == Some(ByOp(|s.workers| - 1)))
    && (ejectLock && HasLast(s) ==> Cleared(Last(s).phase))
  }

  ghost predicate JobsOk(s: State) {
    && (s.session.lastJob.Some? ==>
          var j := s.session.lastJob.value;
          && j.op < |s.workers| && s.workers[j.op].kind.Scan?
          && (j.terminal <==> Terminal(s.workers[j.op].phase)))
    && (HasLast(s) && Last(s).kind.Scan? ==>
          s.session.lastJob.Some? && s.session.lastJob.value.op == |s.workers| - 1)
    && (HasLast(s) && !Last(s).kind.Scan? ==> s.session.motionOp == Some(|s.workers| - 1))
    && (s.session.motionOp.Some? ==> s.session.motionOp.value < |s.workers|)
  }

  predicate DispatchOk(s: State) {
    match s.dispatch
    case Ejecting => HasLast(s) ==> Cleared(Last(s).phase)
    case Closing => HasLast(s) ==> Cleared(Last(s).phase)
    case JoiningJob(_) => HasLast(s) && !Last(s).kind.Scan? ==> MotionOver(Last(s).phase)
    case ShutdownClosing => TransportIdle(s)
    case Exited => TransportIdle(s)
    case _ => true
  }

  function ModeOf(s: State): Mode {
    if HasLast(s) && !Announced(Last(s).phase) then Busy(|s.workers| - 1) else Quiet(|s.workers|)
  }

  /** The parts of the invariant that speak about the state alone. */
  ghost predicate StateOk(s: State) {
    WorkersOk(s) && LaneOk(s) && JobsOk(s) && DispatchOk(s)
  }

  /** The events so far are lawful and end where the last worker is. */
  predicate TraceOk(s: State) {
    Follow(s.trace) == Some(ModeOf(s))
  }

  ghost predicate Inv(s: State) {
    StateOk(s) && TraceOk(s)
  }

  // -- the state, action by action ------------------------------------------------------

  /** An accepted motion request meets a session whose last operation is over. */
  lemma GateMeetsClearedLane(s: State, kind: Kind, armed: bool)
    requires StateOk(s) && s.dispatch.Ready? && MotionGate(s.session, kind, armed).Accepted?
    ensures s.session.lock.None? && !s.session.laneHeld && (HasLast(s) ==> Cleared(Last(s).phase))
  {
  }

  lemma MotionKeepsWorkers(s: State, kind: Kind, armed: bool)
    requires StateOk(s) && Enabled(s, RequestMotion(kind, armed)) && MotionGate(s.session, kind, armed).Accepted?
    ensures WorkersOk(Apply(s, RequestMotion(kind, armed)))
  {
    GateMeetsClearedLane(s, kind, armed);
  }

  lemma MotionKeepsLane(s: State, kind: Kind, armed: bool)
    requires StateOk(s) && Enabled(s, RequestMotion(kind, armed)) && MotionGate(s.session, kind, armed).Accepted?
    ensures LaneOk(Apply(s, RequestMotion(kind, armed))) && DispatchOk(Apply(s, RequestMotion(kind, armed)))
  {
    GateMeetsClearedLane(s, kind, armed);
  }

  lemma MotionKeepsJobs(s: State, kind: Kind, armed: bool)
    requires JobsOk(s) && Enabled(s, RequestMotion(kind, armed)) && MotionGate(s.session, kind, armed).Accepted?
    ensures JobsOk(Apply(s, RequestMotion(kind, armed)))
  {
  }

  lemma MotionKeepsState(s: State, kind: Kind, armed: bool)
    requires StateOk(s) && Enabled(s, RequestMotion(kind, armed))
    ensures StateOk(Apply(s, RequestMotion(kind, armed)))
  {
    if MotionGate(s.session, kind, armed).Accepted? {
      MotionKeepsWorkers(s, kind, armed);
      MotionKeepsLane(s, kind, armed);
      MotionKeepsJobs(s, kind, armed);
    }
  }

  lemma DispatchKeepsState(s: State, a: Action)
    requires StateOk(s) && Enabled(s, a)
    requires a.RequestEject? || a.RequestClose? || a.CloseReturns? || a.RequestShutdown? || a.JoinTimesOut?
    ensures StateOk(Apply(s, a))
  {
  }

  lemma JoinKeepsState(s: State)
    requires StateOk(s) && Enabled(s, JoinReturns)
    ensures StateOk(Apply(s, JoinReturns))
  {
  }

  lemma PlainKeepsState(s: State, a: Action)
    requires StateOk(s) && Enabled(s, a)
    requires a.OpenDevice? || a.EjectReturns? || a.EjectContinues? || a.FilmLost? || a.ManualFrames? || a.ExternalTakes?
             || a.ExternalReleases? || a.Callback? || a.Report?
    ensures StateOk(Apply(s, a))
  {
  }

  lemma ScanCallEndsKeepsState(s: State, a: Action)
    requires StateOk(s) && Enabled(s, a) && a.CallEnds? && s.workers[a.op].kind.Scan?
    ensures StateOk(Apply(s, a))
  {
  }

  lemma OtherCallEndsKeepsState(s: State, a: Action)
    requires StateOk(s) && Enabled(s, a) && a.CallEnds? && !s.workers[a.op].kind.Scan?
    ensures StateOk(Apply(s, a))
  {
  }

  lemma ConcludeKeepsState(s: State, a: Action)
    requires StateOk(s) && Enabled(s, a) && a.Advance?
    requires s.workers[a.op].phase in {Faulted, Reporting, Concluding, Announcing}
    ensures StateOk(Apply(s, a))
  {
  }

  lemma ReleaseKeepsState(s: State, a: Action)
    requires StateOk(s) && Enabled(s, a) && a.Advance?
    requires s.workers[a.op].phase in {DroppingFlag, ExitingLane, Clearing, Returning}
    ensures StateOk(Apply(s, a))
  {
  }

  lemma StepKeepsState(s: State, a: Action)
    requires StateOk(s) && Enabled(s, a)
    ensures StateOk(Apply(s, a))
  {
    match a
    case RequestMotion(kind, armed) => MotionKeepsState(s, kind, armed);
    case RequestEject(_) => DispatchKeepsState(s, a);
    case RequestClose => DispatchKeepsState(s, a);
    case CloseReturns => DispatchKeepsState(s, a);
    case RequestShutdown(_) => DispatchKeepsState(s, a);
    case JoinTimesOut => DispatchKeepsState(s, a);
    case JoinReturns => JoinKeepsState(s);
    case CallEnds(op, _) =>
      if s.workers[op].kind.Scan? { ScanCallEndsKeepsState(s, a); } else { OtherCallEndsKeepsState(s, a); }
    case Advance(op) =>
      if s.workers[op].phase in {Faulted, Reporting, Concluding, Announcing} { ConcludeKeepsState(s, a); }
      else { ReleaseKeepsState(s, a); }
    case _ => PlainKeepsState(s, a);
  }

  // -- the trace ---------------------------------------------------------------------------

  /** The observation an action makes, if any. */
  function Observed(s: State, a: Action): Option<Obs>
    requires Enabled(s, a)
  {
    match a
    case RequestMotion(kind, armed) =>
      if MotionGate(s.session, kind, armed).Accepted? then Some(OpAccepted(|s.workers|, kind)) else None
    case RequestEject(armed) => if EjectGate(s.session, armed).Accepted? then Some(EjectAccepted) else None
    case RequestClose => if CloseGate(s.session).Accepted? then Some(CloseAccepted) else None
    case Callback(op) => Some(Emitted(op, false, s.session.laneHeld, s.session.lock))
    case Report(op) => Some(Emitted(op, false, s.session.laneHeld, s.session.lock))
    case Advance(op) =>
      if s.workers[op].phase.Announcing? then Some(Emitted(op, true, s.session.laneHeld, s.session.lock)) else None
    case _ => None
  }

  lemma StepObserves(s: State, a: Action)
    requires Enabled(s, a)
    ensures Apply(s, a).trace == match Observed(s, a) case None => s.trace case Some(o) => s.trace + [o]
  {
  }

  /** An observation is lawful where it is made and moves the observer with the worker. */
  lemma ObservationIsLawful(s: State, a: Action)
    requires StateOk(s) && Enabled(s, a) && Observed(s, a).Some?
    ensures Observe(ModeOf(s), Observed(s, a).value) == Some(ModeOf(Apply(s, a)))
  {
  }

  lemma SilenceKeepsMode(s: State, a: Action)
    requires StateOk(s) && Enabled(s, a) && Observed(s, a).None?
    ensures ModeOf(Apply(s, a)) == ModeOf(s)
  {
  }

  lemma TraceFollows(trace: seq<Obs>, o: Option<Obs>, m: Mode, m': Mode)
    requires Follow(trace) == Some(m)
    requires match o case None => m' == m case Some(o) => Observe(m, o) == Some(m')
    ensures Follow(match o case None => trace case Some(o) => trace + [o]) == Some(m')
  {
    if o.Some? { FollowSnoc(trace, o.value); }
  }

  lemma StepKeepsTrace(s: State, a: Action)
    requires StateOk(s) && TraceOk(s) && Enabled(s, a)
    ensures TraceOk(Apply(s, a))
  {
    StepObserves(s, a);
    if Observed(s, a).Some? { ObservationIsLawful(s, a); } else { SilenceKeepsMode(s, a); }
    TraceFollows(s.trace, Observed(s, a), ModeOf(s), ModeOf(Apply(s, a)));
  }

  /** The invariant survives every action. */
  lemma StepKeepsInv(s: State, a: Action)
    requires Inv(s) && Enabled(s, a)
    ensures Inv(Apply(s, a))
  {
    StepKeepsState(s, a);
    StepKeepsTrace(s, a);
  }
}
