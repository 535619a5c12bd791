/** Any number of client threads over one `Device`, its successive `Roll`s and
    their batches.  A state holds the shared objects and, for every thread, the
    place it has reached in the driver's code; an action is one critical section,
    one outcome of a call made outside the locks, or one expired deadline. */
module RollProtocol {
  import opened Wrappers
  import opened RollCore

  // -- states -------------------------------------------------------------------

  /** Who a closing iterator returns to. */
  datatype Caller = ToClient | ToRollClose(r: RollId)

  /** Which of the two paths reached `_finish_definite_close`. */
  datatype Path = FromNext | FromClose(k: Caller)

  /** The steps of `_finish_definite_close`, `_release_roll_once` and `_batch_finished`. */
  datatype FinishStage =
    | Testing | Checking | Teardown | Unlocking | Releasing | Closing
    | Marking | Retaining | Aborting

  datatype BatchStage =
    | NextRunning                 // the generator's next is running
    | NextMarking
    | NextRetaining
    | NextLeaving
    | Finish(path: Path, at: FinishStage)
    | CloseCalled(k: Caller)
    | CloseWaiting(k: Caller)
    | CloseTimedOut(k: Caller)
    | CloseRunning(k: Caller)     // the generator's close is running
    | CloseFailing(k: Caller)
    | CloseRetaining(k: Caller)

  /** `Queued` to `Abandoning` are `Roll.close`; `HoldClaiming` to `HoldLeaving` are the
      shared frame of `preview`, `film_present` and `solve_exposure`. */
  datatype RollStage =
    | Queued | Stopping | ReleasingHeld | FreeingRoll | Ending | Abandoning
    | HoldClaiming | HoldRunning | HoldLeaving

  datatype Pc =
    | Idle
    | InBatch(b: BatchId, stage: BatchStage)
    | InRoll(r: RollId, at: RollStage)
    | DeviceRunning
    | DeviceClosing

  datatype IoOwner = BatchIo(b: BatchId) | ThreadIo(t: ThreadId)

  /** `closers`, `ioOwner`, `rollOwner`, `unlocks` and `rollUnlocks` record history the
      program does not keep: who set each closing flag, who took each lock, and how
      often each was given back. */
  datatype State = State(
    device: Device,
    rolls: map<RollId, Roll>,
    batches: map<BatchId, Batch>,
    abandoned: set<BatchId>,
    pcs: map<ThreadId, Pc>,
    closers: map<RollId, ThreadId>,
    ioOwner: Option<IoOwner>,
    rollOwner: Option<RollId>,
    unlocks: multiset<BatchId>,
    rollUnlocks: multiset<RollId>)

  const INITIAL := State(NEW_DEVICE, map[], map[], {}, map[], map[], None, None, multiset{}, multiset{})

  function PcOf(s: State, t: ThreadId): Pc {
    if t in s.pcs then s.pcs[t] else Idle
  }

  /** Where a step acts: its thread, and the batch and the roll it works on. */
  datatype Site = Site(t: ThreadId, b: Option<BatchId>, r: Option<RollId>)

  /** The part of a state a step reads and writes.  Every action is such a local
      update; the rest of the state stays as it is. */
  datatype Local = Local(
    pc: Pc,
    batch: Option<Batch>,
    roll: Option<Roll>,
    closer: Option<ThreadId>,
    device: Device,
    ioOwner: Option<IoOwner>,
    rollOwner: Option<RollId>,
    unlocks: nat,
    rollUnlocks: nat)

  function Lookup<K, V>(m: map<K, V>, k: Option<K>): Option<V> {
    if k.Some? && k.value in m then Some(m[k.value]) else None
  }

  function Store<K, V>(m: map<K, V>, k: Option<K>, v: Option<V>): map<K, V> {
    if k.None? then m else if v.Some? then m[k.value := v.value] else m - {k.value}
  }

  function Focus(s: State, x: Site): Local {
    Local(PcOf(s, x.t), Lookup(s.batches, x.b), Lookup(s.rolls, x.r), Lookup(s.closers, x.r),
          s.device, s.ioOwner, s.rollOwner,
          if x.b.Some? then s.unlocks[x.b.value] else 0,
          if x.r.Some? then s.rollUnlocks[x.r.value] else 0)
  }

  function Write(s: State, x: Site, l: Local): State {
    s.(pcs := s.pcs[x.t := l.pc],
       batches := Store(s.batches, x.b, l.batch),
       rolls := Store(s.rolls, x.r, l.roll),
       closers := Store(s.closers, x.r, l.closer),
       device := l.device,
       ioOwner := l.ioOwner,
       rollOwner := l.rollOwner,
       unlocks := if x.b.Some? then s.unlocks[x.b.value := l.unlocks] else s.unlocks,
       rollUnlocks := if x.r.Some? then s.rollUnlocks[x.r.value := l.rollUnlocks] else s.rollUnlocks)
  }

  function Reachable(s: State): set<BatchId> {
    s.batches.Keys - s.abandoned
  }

  // -- actions ------------------------------------------------------------------

  datatype GeneratorOutcome = Yielded | Ended | WorkerStillActive

  /** What the call a thread is waiting for answered: the generator's outcome, whether
      the batch still owns a usable held child, and whether that child exited. */
  datatype Answer = Answer(outcome: GeneratorOutcome, pending: bool, exited: bool)

  datatype Action =
    | CallOpenRoll(t: ThreadId, r: RollId)
    | CallScanMany(t: ThreadId, r: RollId, b: BatchId)
    | CallNext(t: ThreadId, b: BatchId)
    | CallClose(t: ThreadId, b: BatchId)
    | Abandon(t: ThreadId, b: BatchId)
    | CallRollClose(t: ThreadId, r: RollId)
    | CallHold(t: ThreadId, r: RollId)
    | CallDeviceIo(t: ThreadId)
    | CallDeviceClose(t: ThreadId)
    | CallSafeStop(t: ThreadId, r: RollId)
    | CleanupFault(t: ThreadId, reason: string)
    | Resume(t: ThreadId, answer: Answer)
    | Expire(t: ThreadId)

  /** The objects a thread works on exist. */
  predicate Placed(s: State, pc: Pc) {
    match pc
    case InBatch(b, _) => b in s.batches && s.batches[b].roll in s.rolls
    case InRoll(r, _) => r in s.rolls
    case _ => true
  }

  /** Blocked on a condition; every other started thread can always go on. */
  predicate Blocked(s: State, pc: Pc)
    requires Placed(s, pc)
  {
    match pc
    case InBatch(b, CloseWaiting(_)) => Occupied(s.batches[b])
    case InRoll(r, Queued) => s.rolls[r].closing && !s.rolls[r].closed
    case InRoll(r, Stopping) => RollCloseScan(s.rolls[r], Reachable(s)).RollCloseStopping?
    case _ => false
  }

  predicate Enabled(s: State, a: Action) {
    match a
    case CallOpenRoll(t, r) => PcOf(s, t).Idle? && r !in s.rolls
    case CallScanMany(t, r, b) => PcOf(s, t).Idle? && r in s.rolls && b !in s.batches
    case CallNext(t, b) => PcOf(s, t).Idle? && b in Reachable(s)
    case CallClose(t, b) => PcOf(s, t).Idle? && b in Reachable(s)
    // The last outside reference goes away, so no thread is inside the iterator and
    // the Roll holds it only weakly.
    case Abandon(t, b) =>
      && PcOf(s, t).Idle?
      && b in Reachable(s)
      && (forall u | u in s.pcs :: s.pcs[u].InBatch? ==> s.pcs[u].b != b)
      && (forall r | r in s.rolls :: s.rolls[r].uncertainBatch != Some(b))
    case CallRollClose(t, r) => PcOf(s, t).Idle? && r in s.rolls
    case CallHold(t, r) => PcOf(s, t).Idle? && r in s.rolls
    case CallDeviceIo(t) => PcOf(s, t).Idle?
    case CallDeviceClose(t) => PcOf(s, t).Idle?
    case CallSafeStop(t, r) => PcOf(s, t).Idle? && r in s.rolls
    case CleanupFault(t, _) => PcOf(s, t).Idle?
    case Resume(t, _) => !PcOf(s, t).Idle? && Placed(s, PcOf(s, t)) && !Blocked(s, PcOf(s, t))
    case Expire(t) => Placed(s, PcOf(s, t)) && Blocked(s, PcOf(s, t))
  }

  /** Where the caller of an iterator's `close` goes on after a definite close, and
      after a `DeviceBusy`. */
  function Returned(k: Caller): Pc {
    match k
    case ToClient => Idle
    case ToRollClose(r) => InRoll(r, ReleasingHeld)
  }

  function Refused(k: Caller): Pc {
    match k
    case ToClient => Idle
    case ToRollClose(r) => InRoll(r, Abandoning)
  }

  function AfterFinish(b: BatchId, path: Path, definite: bool): Pc {
    match path
    case FromNext => InBatch(b, NextLeaving)
    case FromClose(k) => if definite then Returned(k) else Refused(k)
  }

  function FinishStep(l: Local, b: BatchId, path: Path, at: FinishStage, w: Answer): Local
    requires l.batch.Some? && l.roll.Some?
  {
    var x, roll := l.batch.value, l.roll.value;
    match at
    case Testing =>
      l.(pc := InBatch(b, Finish(path, if x.released then Closing else Checking)))
    case Checking =>
      l.(pc := InBatch(b, Finish(path,
        if roll.activeBatchId != Some(b) then Releasing
        else if w.pending then Teardown
        else Unlocking)))
    case Teardown =>
      l.(pc := InBatch(b, Finish(path, if w.exited then Unlocking else Marking)))
    case Unlocking =>
      var (roll', device') := BatchFinished(roll, l.device);
      l.(roll := Some(roll'), device := device', ioOwner := None, unlocks := l.unlocks + 1,
         pc := InBatch(b, Finish(path, Releasing)))
    case Releasing =>
      l.(batch := Some(SetReleased(x)), pc := InBatch(b, Finish(path, Closing)))
    case Closing =>
      l.(batch := Some(FinishClosed(x)), pc := AfterFinish(b, path, true))
    case Marking =>
      l.(batch := Some(MarkUncertain(x)), pc := InBatch(b, Finish(path, Retaining)))
    case Retaining =>
      l.(roll := Some(RetainUncertain(roll, b)), pc := InBatch(b, Finish(path, Aborting)))
    case Aborting =>
      l.(batch := Some(FinishAborted(x)), pc := AfterFinish(b, path, false))
  }

  function AfterClaim(b: BatchId, k: Caller, d: CloseDecision): Pc {
    match d
    case CloseUncertain => Refused(k)
    case CloseDone => Returned(k)
    case CloseFromInside => Refused(k)
    case CloseWait => InBatch(b, CloseWaiting(k))
    case CloseClaimed => InBatch(b, CloseRunning(k))
  }

  function BatchStep(l: Local, t: ThreadId, b: BatchId, stage: BatchStage, w: Answer): Local
    requires l.batch.Some? && l.roll.Some?
  {
    var x, roll := l.batch.value, l.roll.value;
    match stage
    case NextRunning =>
      l.(pc := InBatch(b, match w.outcome
                          case Yielded => NextLeaving
                          case Ended => Finish(FromNext, Testing)
                          case WorkerStillActive => NextMarking))
    case NextMarking =>
      l.(batch := Some(MarkUncertain(x)), pc := InBatch(b, NextRetaining))
    case NextRetaining =>
      l.(roll := Some(RetainUncertain(roll, b)), pc := InBatch(b, NextLeaving))
    case NextLeaving =>
      l.(batch := Some(NextLeave(x)), pc := Idle)
    case Finish(path, at) =>
      FinishStep(l, b, path, at, w)
    case CloseCalled(k) =>
      var (x', d) := CloseEnter(x, t);
      l.(batch := Some(x'),
         roll := Some(if CloseRequestsStop(x, t) then SafeStop(roll) else roll),
         pc := AfterClaim(b, k, d))
    case CloseWaiting(k) =>
      var (x', d) := CloseResume(x, t);
      l.(batch := Some(x'), pc := AfterClaim(b, k, d))
    case CloseTimedOut(k) =>
      l.(roll := Some(RetainUncertain(roll, b)), pc := Refused(k))
    case CloseRunning(k) =>
      l.(pc := InBatch(b, if w.outcome.WorkerStillActive? then CloseFailing(k)
                          else Finish(FromClose(k), Testing)))
    case CloseFailing(k) =>
      l.(batch := Some(CloseFailed(x)), pc := InBatch(b, CloseRetaining(k)))
    case CloseRetaining(k) =>
      l.(roll := Some(RetainUncertain(roll, b)), pc := Refused(k))
  }

  function AfterScan(r: RollId, d: RollCloseDecision): Pc {
    match d
    case RollCloseWait => InRoll(r, Queued)
    case RollCloseDone => Idle
    case RollCloseStopping => InRoll(r, Stopping)
    case RollCloseBatch(b) => InBatch(b, CloseCalled(ToRollClose(r)))
    case RollCloseClear => InRoll(r, ReleasingHeld)
  }

  /** The opening block of `Roll.close`, run at the call and again when a queued
      closer wakes. */
  function RollCloseStep(l: Local, t: ThreadId, r: RollId, reachable: set<BatchId>): Local
    requires l.roll.Some?
  {
    var (roll', d) := RollCloseEnter(l.roll.value, reachable);
    l.(roll := Some(roll'),
       closer := if d.RollCloseWait? || d.RollCloseDone? then l.closer else Some(t),
       pc := AfterScan(r, d))
  }

  function RollStep(l: Local, t: ThreadId, r: RollId, at: RollStage, reachable: set<BatchId>): Local
    requires l.roll.Some?
  {
    var roll := l.roll.value;
    match at
    case Queued => RollCloseStep(l, t, r, reachable)
    case Stopping => l.(pc := AfterScan(r, RollCloseScan(roll, reachable)))
    case ReleasingHeld => l.(pc := InRoll(r, FreeingRoll))
    case FreeingRoll =>
      l.(device := ReleaseRollLock(l.device), rollOwner := None,
         rollUnlocks := if l.device.rollLocked then l.rollUnlocks + 1 else l.rollUnlocks,
         pc := InRoll(r, Ending))
    case Ending => l.(roll := Some(RollCloseFinal(roll)), closer := None, pc := Idle)
    case Abandoning => l.(roll := Some(RollCloseAborted(roll)), closer := None, pc := Idle)
    case HoldClaiming =>
      var (device', got) := AcquireIo(l.device);
      if got then l.(device := device', ioOwner := Some(ThreadIo(t)), pc := InRoll(r, HoldRunning))
      else l.(pc := InRoll(r, HoldLeaving))
    case HoldRunning =>
      l.(device := ReleaseIo(l.device), ioOwner := None, pc := InRoll(r, HoldLeaving))
    case HoldLeaving => l.(roll := Some(HoldLeave(roll)), pc := Idle)
  }

  function OpenRollStep(l: Local, r: RollId): Local {
    var (device', got) := OpenRoll(l.device);
    if got then l.(roll := Some(NEW_ROLL), device := device', rollOwner := Some(r)) else l
  }

  function ScanManyStep(l: Local, r: RollId, b: BatchId): Local
    requires l.roll.Some?
  {
    var (roll', device', got) := ReserveBatch(l.roll.value, l.device, b);
    if got then
      l.(roll := Some(roll'), batch := Some(NewBatch(r)), device := device', ioOwner := Some(BatchIo(b)))
    else l
  }

  function NextStep(l: Local, t: ThreadId, b: BatchId): Local
    requires l.batch.Some?
  {
    var (x', d) := NextEnter(l.batch.value, t);
    l.(batch := Some(x'), pc := if d.NextGo? then InBatch(b, NextRunning) else Idle)
  }

  function HoldStep(l: Local, t: ThreadId, r: RollId): Local
    requires l.roll.Some?
  {
    var (roll', got) := HoldEnter(l.roll.value, t);
    l.(roll := Some(roll'), pc := if got then InRoll(r, HoldClaiming) else Idle)
  }

  function DeviceIoStep(l: Local, t: ThreadId): Local {
    var (device', got) := AcquireIo(l.device);
    if got then l.(device := device', ioOwner := Some(ThreadIo(t)), pc := DeviceRunning) else l
  }

  function DeviceCloseStep(l: Local, t: ThreadId): Local {
    var (device', got) := DeviceClose(l.device);
    if got then l.(device := device', ioOwner := Some(ThreadIo(t)), pc := DeviceClosing) else l
  }

  function DeviceLeaveStep(l: Local): Local {
    l.(device := ReleaseIo(l.device), ioOwner := None, pc := Idle)
  }

  /** An expired deadline: of the iterator's waiting loop, or of one of `Roll.close`. */
  function ExpireStep(l: Local): Local {
    match l.pc
    case InBatch(b, CloseWaiting(k)) =>
      if l.batch.None? then l
      else l.(batch := Some(MarkUncertain(l.batch.value)), pc := InBatch(b, CloseTimedOut(k)))
    case InRoll(r, Queued) => l.(pc := Idle)
    case InRoll(r, Stopping) =>
      if l.roll.None? then l
      else l.(roll := Some(RollCloseAborted(l.roll.value)), closer := None, pc := Idle)
    case _ => l
  }

  function ResumeStep(l: Local, t: ThreadId, w: Answer, reachable: set<BatchId>): Local {
    match l.pc
    case InBatch(b, stage) => if l.batch.Some? && l.roll.Some? then BatchStep(l, t, b, stage, w) else l
    case InRoll(r, at) => if l.roll.Some? then RollStep(l, t, r, at, reachable) else l
    case DeviceRunning => DeviceLeaveStep(l)
    case DeviceClosing => DeviceLeaveStep(l)
    case Idle => l
  }

  function RollOfBatch(s: State, b: BatchId): Option<RollId> {
    if b in s.batches then Some(s.batches[b].roll) else None
  }

  function ActiveOf(s: State, r: RollId): Option<BatchId> {
    if r in s.rolls then s.rolls[r].activeBatchId else None
  }

  /** The objects a started thread works on; a closer of a roll may move on to the
      roll's active batch. */
  function Own(s: State, t: ThreadId): Site {
    match PcOf(s, t)
    case InBatch(b, _) => Site(t, Some(b), RollOfBatch(s, b))
    case InRoll(r, at) => Site(t, ActiveOf(s, r), Some(r))
    case _ => Site(t, None, None)
  }

  function SiteOf(s: State, a: Action): Site {
    match a
    case CallOpenRoll(t, r) => Site(t, None, Some(r))
    case CallScanMany(t, r, b) => Site(t, Some(b), Some(r))
    case CallNext(t, b) => Site(t, Some(b), RollOfBatch(s, b))
    case CallClose(t, b) => Site(t, Some(b), RollOfBatch(s, b))
    case Abandon(t, b) => Site(t, Some(b), RollOfBatch(s, b))
    case CallRollClose(t, r) => Site(t, ActiveOf(s, r), Some(r))
    case CallHold(t, r) => Site(t, None, Some(r))
    case CallDeviceIo(t) => Site(t, None, None)
    case CallDeviceClose(t) => Site(t, None, None)
    case CallSafeStop(t, r) => Site(t, None, Some(r))
    case CleanupFault(t, _) => Site(t, None, None)
    case Resume(t, _) => Own(s, t)
    case Expire(t) => Own(s, t)
  }

  function Effect(s: State, a: Action, l: Local): Local
    requires Enabled(s, a) && l == Focus(s, SiteOf(s, a))
  {
    match a
    case CallOpenRoll(t, r) => OpenRollStep(l, r)
    case CallScanMany(t, r, b) => ScanManyStep(l, r, b)
    case CallNext(t, b) => NextStep(l, t, b)
    case CallClose(t, b) => l.(pc := InBatch(b, CloseCalled(ToClient)))
    case Abandon(t, b) => l.(pc := InBatch(b, CloseCalled(ToClient)))
    case CallRollClose(t, r) => RollCloseStep(l, t, r, Reachable(s))
    case CallHold(t, r) => HoldStep(l, t, r)
    case CallDeviceIo(t) => DeviceIoStep(l, t)
    case CallDeviceClose(t) => DeviceCloseStep(l, t)
    case CallSafeStop(t, r) => l.(roll := Some(SafeStop(l.roll.value)))
    case CleanupFault(t, reason) => l.(device := MarkFaulted(l.device, reason))
    case Resume(t, w) => ResumeStep(l, t, w, Reachable(s))
    case Expire(t) => ExpireStep(l)
  }

  function Apply(s: State, a: Action): State
    requires Enabled(s, a)
  {
    var x := SiteOf(s, a);
    var s' := Write(s, x, Effect(s, a, Focus(s, x)));
    if a.Abandon? then s'.(abandoned := s.abandoned + {a.b}) else s'
  }
}
