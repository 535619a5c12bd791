/** The critical sections of `Device`, `Roll` and the owned batch iterator.

    Every function below is one `with <condition>:` block of the driver, written
    on values: it takes the fields before the block and gives the fields after it
    together with what the block decided.  `RollObjects` proves that the methods of
    the mutable classes compute exactly these functions; `RollProtocol` lets any
    number of threads interleave them. */
module RollCore {
  import opened Wrappers

  type ThreadId = int
  type RollId = int
  type BatchId = int

  // -- data -------------------------------------------------------------------

  datatype Device = Device(closed: bool, faultedReason: Option<string>, ioLocked: bool, rollLocked: bool)

  /** `activeBatch` is the weak reference, `uncertainBatch` the strong one that
      keeps a fail-closed batch reachable. */
  datatype Roll = Roll(
    closing: bool,
    closed: bool,
    stop: bool,
    batchLocked: bool,
    activeBatch: Option<BatchId>,
    uncertainBatch: Option<BatchId>,
    activeBatchId: Option<BatchId>,
    previewActive: bool,
    previewThread: Option<ThreadId>)

  datatype Batch = Batch(
    roll: RollId,
    executing: Option<ThreadId>,
    closing: Option<ThreadId>,
    closed: bool,
    released: bool,
    uncertain: bool)

  const NEW_DEVICE := Device(false, None, false, false)
  const NEW_ROLL := Roll(false, false, false, false, None, None, None, false, None)

  function NewBatch(r: RollId): Batch {
    Batch(r, None, None, false, false, false)
  }

  // -- the owned batch iterator -------------------------------------------------

  datatype NextDecision = NextStop | NextBusy | NextGo

  function NextEnter(b: Batch, t: ThreadId): (Batch, NextDecision) {
    if b.closed then (b, NextStop)
    else if b.closing.Some? then (b, NextBusy)
    else if b.executing.Some? then (b, NextBusy)
    else (b.(executing := Some(t)), NextGo)
  }

  function NextLeave(b: Batch): Batch {
    b.(executing := None)
  }

  /** `CloseWait`: the condition wait released the lock; `CloseClaimed`: this
      thread now owns the generator's shutdown. */
  datatype CloseDecision = CloseUncertain | CloseDone | CloseFromInside | CloseWait | CloseClaimed

  predicate Occupied(b: Batch) {
    b.executing.Some? || b.closing.Some?
  }

  /** The tests after the waiting loop. */
  function CloseResume(b: Batch, t: ThreadId): (Batch, CloseDecision) {
    if Occupied(b) then (b, CloseWait)
    else if b.uncertain then (b, CloseUncertain)
    else if b.closed then (b, CloseDone)
    else (b.(closing := Some(t)), CloseClaimed)
  }

  function CloseEnter(b: Batch, t: ThreadId): (Batch, CloseDecision) {
    if b.uncertain then (b, CloseUncertain)
    else if b.closed then (b, CloseDone)
    else if b.executing == Some(t) || b.closing == Some(t) then (b, CloseFromInside)
    else CloseResume(b, t)
  }

  /** `safe_stop` is reached exactly when the three early tests fall through. */
  predicate CloseRequestsStop(b: Batch, t: ThreadId) {
    !b.uncertain && !b.closed && b.executing != Some(t) && b.closing != Some(t)
  }

  function MarkUncertain(b: Batch): Batch {
    b.(uncertain := true)
  }

  /** The generator refused to close because its worker is still alive. */
  function CloseFailed(b: Batch): Batch {
    b.(closed := false, uncertain := true, closing := None)
  }

  function SetReleased(b: Batch): Batch {
    b.(released := true)
  }

  function FinishClosed(b: Batch): Batch {
    b.(closed := true, closing := None)
  }

  function FinishAborted(b: Batch): Batch {
    b.(closing := None)
  }

  // -- Device -------------------------------------------------------------------

  predicate Usable(d: Device) {
    !d.closed && d.faultedReason.None?
  }

  /** A claim of one of the device's two locks: refused, or the lock taken. */
  function AcquireIo(d: Device): (Device, bool) {
    if Usable(d) && !d.ioLocked then (d.(ioLocked := true), true) else (d, false)
  }

  function ReleaseIo(d: Device): Device {
    d.(ioLocked := false)
  }

  function OpenRoll(d: Device): (Device, bool) {
    if Usable(d) && !d.rollLocked then (d.(rollLocked := true), true) else (d, false)
  }

  /** Carries no token: it frees whatever reservation is there. */
  function ReleaseRollLock(d: Device): Device {
    d.(rollLocked := false)
  }

  /** The block of `Device.close` that ends holding the I/O lock. */
  function DeviceClose(d: Device): (Device, bool) {
    if d.closed || d.rollLocked || d.ioLocked then (d, false)
    else (d.(closed := true, ioLocked := true), true)
  }

  function MarkFaulted(d: Device, reason: string): Device {
    if d.closed then d else d.(faultedReason := Some(reason))
  }

  // -- Roll ---------------------------------------------------------------------

  predicate MutableReview(r: Roll) {
    !r.closed && !r.closing && r.activeBatchId.None? && !r.previewActive
  }

  /** `_reserve_batch_locked` behind the review tests of `scan_many`. */
  function ReserveBatch(r: Roll, d: Device, b: BatchId): (Roll, Device, bool) {
    if !MutableReview(r) then (r, d, false)
    else
      var (d', got) := AcquireIo(d);
      if !got then (r, d, false)
      else if r.batchLocked then (r, ReleaseIo(d'), false)
      else
        (r.(batchLocked := true, stop := false, activeBatch := Some(b), uncertainBatch := None,
            activeBatchId := Some(b)),
         d', true)
  }

  function RetainUncertain(r: Roll, b: BatchId): Roll {
    if r.activeBatchId != Some(b) then r else r.(uncertainBatch := Some(b))
  }

  /** The second block of `_batch_finished`. */
  function BatchFinished(r: Roll, d: Device): (Roll, Device) {
    (r.(activeBatch := None, uncertainBatch := None, activeBatchId := None, batchLocked := false),
     ReleaseIo(d))
  }

  /** The opening block of `preview`, `film_present` and `solve_exposure`. */
  function HoldEnter(r: Roll, t: ThreadId): (Roll, bool) {
    if MutableReview(r) then (r.(previewActive := true, previewThread := Some(t)), true) else (r, false)
  }

  function HoldLeave(r: Roll): Roll {
    r.(previewActive := false, previewThread := None)
  }

  function SafeStop(r: Roll): Roll {
    r.(stop := true)
  }

  datatype RollCloseDecision =
    | RollCloseWait          // another close() is running
    | RollCloseDone          // already closed
    | RollCloseStopping      // waiting for a preview, or for an abandoned batch to become reachable
    | RollCloseBatch(b: BatchId)
    | RollCloseClear         // nothing is running

  /** `_active_batch_locked`; `reachable` says which weak references still resolve. */
  function ActiveBatch(r: Roll, reachable: set<BatchId>): Option<BatchId> {
    if r.uncertainBatch.Some? then r.uncertainBatch
    else if r.activeBatch.Some? && r.activeBatch.value in reachable then r.activeBatch
    else None
  }

  /** The two waiting loops of `Roll.close` once this thread owns the closing flag. */
  function RollCloseScan(r: Roll, reachable: set<BatchId>): RollCloseDecision {
    var active := ActiveBatch(r, reachable);
    if r.previewActive then RollCloseStopping
    else if active.Some? then RollCloseBatch(active.value)
    else if r.activeBatchId.Some? then RollCloseStopping
    else RollCloseClear
  }

  function RollCloseEnter(r: Roll, reachable: set<BatchId>): (Roll, RollCloseDecision) {
    if r.closing && !r.closed then (r, RollCloseWait)
    else if r.closed then (r, RollCloseDone)
    else
      var r' := r.(closing := true, stop := true);
      (r', RollCloseScan(r', reachable))
  }

  function RollCloseAborted(r: Roll): Roll {
    r.(closing := false)
  }

  function RollCloseFinal(r: Roll): Roll {
    r.(closed := true, closing := false)
  }
}
