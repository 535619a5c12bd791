/** The driver's objects with their own fields.  The first methods of each class are its
    critical sections, proved to compute the step functions of `RollCore`; the last ones
    are whole calls of one thread, composed of them.  What the calls made outside the
    locks answer is the parameter `w`; a wait that nobody ends runs into its deadline. */
module RollObjects {
  import opened Wrappers
  import opened RollCore
  import opened RollProtocol
  import opened RollSafety
  import opened RollCalls
  import G = CleanupFault

  class ScannerDevice {
    var closed: bool
    var faultedReason: Option<string>
    var ioLocked: bool
    var rollLocked: bool

    function View(): Device
      reads this
    {
      Device(closed, faultedReason, ioLocked, rollLocked)
    }

    constructor ()
      ensures View() == NEW_DEVICE
    {
      closed, faultedReason, ioLocked, rollLocked := false, None, false, false;
    }

    method AcquireIoLock() returns (got: bool)
      modifies this
      ensures (View(), got) == AcquireIo(old(View()))
      ensures got <==> old(!closed && faultedReason.None? && !ioLocked)
      ensures View() == old(View()).(ioLocked := got || old(ioLocked))
    {
      if closed || faultedReason.Some? { return false; }
      if ioLocked { return false; }
      ioLocked := true;
      return true;
    }

    method ReleaseIoLock()
      modifies this
      ensures View() == ReleaseIo(old(View()))
      ensures View() == old(View()).(ioLocked := false)
    {
      ioLocked := false;
    }

    /** The locked part of `Device.roll`. */
    method ClaimRoll() returns (got: bool)
      modifies this
      ensures (View(), got) == OpenRoll(old(View()))
      ensures got <==> old(!closed && faultedReason.None? && !rollLocked)
      ensures View() == old(View()).(rollLocked := got || old(rollLocked))
    {
      if closed || faultedReason.Some? { return false; }
      if rollLocked { return false; }
      rollLocked := true;
      return true;
    }

    method ReleaseRollReservation()
      modifies this
      ensures View() == ReleaseRollLock(old(View()))
      ensures View() == old(View()).(rollLocked := false)
    {
      if rollLocked {
        rollLocked := false;
      }
    }

    method BeginClose() returns (got: bool)
      modifies this
      ensures (View(), got) == DeviceClose(old(View()))
      ensures got <==> old(!closed && !rollLocked && !ioLocked)
      ensures View() == if got then old(View()).(closed := true, ioLocked := true) else old(View())
    {
      if closed { return false; }
      if rollLocked { return false; }
      if ioLocked { return false; }
      ioLocked := true;
      closed := true;
      return true;
    }

    method MarkFault(reason: string)
      modifies this
      ensures View() == MarkFaulted(old(View()), reason)
      ensures faultedReason == (if closed then old(faultedReason) else Some(reason)) && closed == old(closed)
      ensures ioLocked == old(ioLocked) && rollLocked == old(rollLocked)
    {
      if !closed {
        faultedReason := Some(reason);
      }
    }

    /** Ends on every graph, and marks an open device faulted exactly when a cleanup
        failure is reachable from the raised error. */
    method MarkFaultIfCleanupError(h: G.Heap, error: G.Id)
      requires G.Closed(h) && error in h
      modifies this
      ensures closed == old(closed)
      ensures closed || (forall x :: G.Reachable(h, error, x) ==> !h[x].cleanup) ==> View() == old(View())
      ensures !closed && (exists x :: G.Reachable(h, error, x) && h[x].cleanup) ==>
        exists x :: G.Reachable(h, error, x) && h[x].cleanup && View() == old(View()).(faultedReason := Some(h[x].text))
      ensures !closed && h[error].cleanup ==> faultedReason == Some(h[error].text)
    {
      var pending: seq<G.Id> := [error];
      var seen: set<G.Id> := {};
      G.ReachableSelf(h, error);
      while pending != []
        invariant forall x | x in pending :: x in h && G.Reachable(h, error, x)
        invariant forall x | x in seen :: x in h && !h[x].cleanup
        invariant forall x, y | x in seen && G.Links(h, x, y) :: y in seen || y in pending
        invariant error in seen || pending == [error]
        invariant View() == old(View())
        decreases h.Keys - seen, |pending|
      {
        var candidate := pending[|pending| - 1];
        ghost var before := pending;
        pending := pending[..|pending| - 1];
        assert forall x | x in before :: x == candidate || x in pending;
        if candidate in seen { continue; }
        assert candidate in h.Keys - seen;
        seen := seen + {candidate};
        if h[candidate].cleanup {
          MarkFault(h[candidate].text);
          return;
        }
        if h[candidate].cause.Some? {
          G.ReachableLink(h, error, candidate, h[candidate].cause.value);
          pending := pending + [h[candidate].cause.value];
        }
        if h[candidate].context.Some? {
          G.ReachableLink(h, error, candidate, h[candidate].context.value);
          pending := pending + [h[candidate].context.value];
        }
      }
      forall x | G.Reachable(h, error, x)
        ensures x in seen
      {
        var p :| G.Chain(h, p) && p[0] == error && p[|p| - 1] == x;
        G.ClosedSetHoldsChain(h, seen, p);
      }
    }
  }

  datatype NextResult = Frame | Exhausted | NextRefused | NextUnconfirmed

  datatype CloseResult = Closed | CloseRefused

  class OwnedRollBatchIterator {
    const roll: RollId
    var executingThread: Option<ThreadId>
    var closingThread: Option<ThreadId>
    var closed: bool
    var released: bool
    var ownershipUncertain: bool

    function View(): Batch
      reads this
    {
      Batch(roll, executingThread, closingThread, closed, released, ownershipUncertain)
    }

    constructor (r: RollId)
      ensures View() == NewBatch(r)
    {
      roll := r;
      executingThread, closingThread := None, None;
      closed, released, ownershipUncertain := false, false, false;
    }

    /** The opening block of `__next__`. */
    method BeginNext(t: ThreadId) returns (d: NextDecision)
      modifies this
      ensures (View(), d) == NextEnter(old(View()), t)
      ensures d == if old(closed) then NextStop else if old(closingThread.Some? || executingThread.Some?) then NextBusy else NextGo
      ensures executingThread == if d.NextGo? then Some(t) else old(executingThread)
    {
      if closed { return NextStop; }
      if closingThread != None { return NextBusy; }
      if executingThread != None { return NextBusy; }
      executingThread := Some(t);
      return NextGo;
    }

    /** The closing block of `__next__`. */
    method EndNext()
      modifies this
      ensures View() == NextLeave(old(View()))
      ensures View() == old(View()).(executing := None)
    {
      executingThread := None;
    }

    /** The tests of `close` after its waiting loop; `CloseWait` goes back to sleep. */
    method ClaimClose(t: ThreadId) returns (d: CloseDecision)
      modifies this
      ensures (View(), d) == CloseResume(old(View()), t)
      ensures d ==
        if old(executingThread.Some? || closingThread.Some?) then CloseWait
        else if old(ownershipUncertain) then CloseUncertain
        else if old(closed) then CloseDone
        else CloseClaimed
      ensures closingThread == if d.CloseClaimed? then Some(t) else old(closingThread)
    {
      if executingThread != None || closingThread != None { return CloseWait; }
      if ownershipUncertain { return CloseUncertain; }
      if closed { return CloseDone; }
      closingThread := Some(t);
      return CloseClaimed;
    }

    /** The locked block of `close`, up to its first wait. */
    method BeginClose(t: ThreadId, owner: RollReservation) returns (d: CloseDecision)
      modifies this, owner
      ensures (View(), d) == CloseEnter(old(View()), t)
      ensures owner.View() ==
              if CloseRequestsStop(old(View()), t) then SafeStop(old(owner.View())) else old(owner.View())
      ensures owner.stopEvent <==> (old(owner.stopEvent)
        || old(!ownershipUncertain && !closed && executingThread != Some(t) && closingThread != Some(t)))
    {
      if ownershipUncertain { return CloseUncertain; }
      if closed { return CloseDone; }
      if executingThread == Some(t) || closingThread == Some(t) { return CloseFromInside; }
      owner.RequestStop();
      d := ClaimClose(t);
    }

    method BecomeUncertain()
      modifies this
      ensures View() == MarkUncertain(old(View()))
    {
      ownershipUncertain := true;
    }

    /** `close` after the generator reported a live worker. */
    method FailClose()
      modifies this
      ensures View() == CloseFailed(old(View()))
      ensures View() == old(View()).(closed := false, uncertain := true, closing := None)
    {
      closed := false;
      ownershipUncertain := true;
      closingThread := None;
    }

    method MarkReleased()
      modifies this
      ensures View() == SetReleased(old(View()))
    {
      released := true;
    }

    method EndClose()
      modifies this
      ensures View() == FinishClosed(old(View()))
    {
      closed := true;
      closingThread := None;
    }

    method AbortClose()
      modifies this
      ensures View() == FinishAborted(old(View()))
    {
      closingThread := None;
    }

    // -- whole calls --------------------------------------------------------------------

    /** The three objects of a call as a place of the protocol, without its history. */
    ghost function Place(pc: Pc, owner: RollReservation, device: ScannerDevice): Local
      reads this, owner, device
    {
      Local(pc, Some(View()), Some(owner.View()), None, device.View(), None, None, 0, 0)
    }

    /** `_release_roll_once`; false when the held child did not exit. */
    method ReleaseRollOnce(b: BatchId, owner: RollReservation, device: ScannerDevice, w: RollProtocol.Answer)
      returns (confirmed: bool)
      modifies this, owner, device
      ensures confirmed == !old(Keeps(View(), owner.View(), b, w))
      ensures View() == if confirmed then SetReleased(old(View())) else old(View())
      ensures (owner.View(), device.View()) ==
              if old(Frees(View(), owner.View(), b, w)) then BatchFinished(old(owner.View()), old(device.View()))
              else (old(owner.View()), old(device.View()))
    {
      if released { return true; }
      confirmed := owner.EndBatch(b, device, w);
      if !confirmed { return; }
      MarkReleased();
    }

    /** `_finish_definite_close`: both locks are freed before anyone can see the batch closed. */
    method FinishDefiniteClose(b: BatchId, owner: RollReservation, device: ScannerDevice, w: RollProtocol.Answer)
      returns (definite: bool)
      modifies this, owner, device
      ensures definite == !old(Keeps(View(), owner.View(), b, w))
      ensures (View(), owner.View(), device.View()) == Finished(old(View()), old(owner.View()), old(device.View()), b, w)
    {
      definite := ReleaseRollOnce(b, owner, device, w);
      if definite {
        EndClose();
      } else {
        BecomeUncertain();
        owner.RetainUncertainBatch(b);
        AbortClose();
      }
    }

    method Next(b: BatchId, t: ThreadId, owner: RollReservation, device: ScannerDevice, w: RollProtocol.Answer)
      returns (r: NextResult)
      modifies this, owner, device
      ensures NextMeans(old(View()), old(owner.View()), old(device.View()), View(), owner.View(), device.View(), b, t, w)
      ensures old(Agree(View(), owner.View(), device.View(), b)) ==> Agree(View(), owner.View(), device.View(), b)
      ensures r.NextUnconfirmed? ==> ownershipUncertain
      ensures r.NextRefused? <==> old(!closed && (closingThread.Some? || executingThread.Some?))
      ensures old(!closed && closingThread.None? && executingThread.None?) ==>
        SameObjects(Place(Idle, owner, device),
                    Carry(old(Place(InBatch(b, NextRunning), owner, device)).(batch := Some(old(View()).(executing := Some(t)))), t, w))
    {
      var d := BeginNext(t);
      if d.NextStop? { return Exhausted; }
      if d.NextBusy? { return NextRefused; }
      NextCallMeans(old(View()), owner.View(), device.View(), b, t, w);
      if old(Agree(View(), owner.View(), device.View(), b)) {
        NextCallAgrees(old(View()), owner.View(), device.View(), b, t, w);
      }
      CarryNext(Place(InBatch(b, NextRunning), owner, device), t, b, w);
      r := RunNext(b, owner, device, w);
    }

    /** `__next__` between its two blocks, and the second one. */
    method RunNext(b: BatchId, owner: RollReservation, device: ScannerDevice, w: RollProtocol.Answer) returns (r: NextResult)
      modifies this, owner, device
      ensures (View(), owner.View(), device.View()) == NextCall(old(View()), old(owner.View()), old(device.View()), b, w)
      ensures !r.NextRefused? && (r.NextUnconfirmed? ==> ownershipUncertain)
    {
      r := Frame;
      match w.outcome {
        case Yielded =>
        case WorkerStillActive =>
          BecomeUncertain();
          owner.RetainUncertainBatch(b);
          r := NextUnconfirmed;
        case Ended =>
          var definite := FinishDefiniteClose(b, owner, device, w);
          r := if definite then Exhausted else NextUnconfirmed;
      }
      EndNext();
    }

    method Close(b: BatchId, t: ThreadId, owner: RollReservation, device: ScannerDevice, w: RollProtocol.Answer)
      returns (r: CloseResult)
      modifies this, owner, device
      ensures CloseMeans(old(View()), old(owner.View()), old(device.View()), View(), owner.View(), device.View(), r.Closed?, b, t, w)
      ensures old(Agree(View(), owner.View(), device.View(), b)) ==> Agree(View(), owner.View(), device.View(), b)
      ensures (View(), owner.View(), device.View(), r.Closed?)
           == CloseCall(old(View()), old(owner.View()), old(device.View()), b, t, w)
      ensures SameObjects(Place(if r.Closed? then Returned(ToClient) else Refused(ToClient), owner, device),
                          Carry(old(Place(InBatch(b, CloseCalled(ToClient)), owner, device)), t, w))
    {
      CloseCallMeans(View(), owner.View(), device.View(), b, t, w);
      if Agree(View(), owner.View(), device.View(), b) {
        CloseCallAgrees(View(), owner.View(), device.View(), b, t, w);
      }
      CarryClose(Place(InBatch(b, CloseCalled(ToClient)), owner, device), t, b, ToClient, w);
      r := RunClose(b, t, owner, device, w);
    }

    method RunClose(b: BatchId, t: ThreadId, owner: RollReservation, device: ScannerDevice, w: RollProtocol.Answer)
      returns (r: CloseResult)
      modifies this, owner, device
      ensures (View(), owner.View(), device.View(), r.Closed?)
           == CloseCall(old(View()), old(owner.View()), old(device.View()), b, t, w)
    {
      var d := BeginClose(t, owner);
      match d
      case CloseUncertain => return CloseRefused;
      case CloseFromInside => return CloseRefused;
      case CloseDone => return Closed;
      case CloseWait =>
        BecomeUncertain();
        owner.RetainUncertainBatch(b);
        return CloseRefused;
      case CloseClaimed =>
        if w.outcome.WorkerStillActive? {
          FailClose();
          owner.RetainUncertainBatch(b);
          return CloseRefused;
        }
        var definite := FinishDefiniteClose(b, owner, device, w);
        return if definite then Closed else CloseRefused;
    }
  }

  /** The ownership fields of `Roll`. */
  class RollReservation {
    var closing: bool
    var closed: bool
    var stopEvent: bool
    var batchLocked: bool
    var activeBatch: Option<BatchId>
    var uncertainBatch: Option<BatchId>
    var activeBatchId: Option<BatchId>
    var previewActive: bool
    var previewThread: Option<ThreadId>

    function View(): Roll
      reads this
    {
      Roll(closing, closed, stopEvent, batchLocked, activeBatch, uncertainBatch, activeBatchId,
           previewActive, previewThread)
    }

    constructor ()
      ensures View() == NEW_ROLL
    {
      closing, closed, stopEvent, batchLocked, previewActive := false, false, false, false, false;
      activeBatch, uncertainBatch, activeBatchId, previewThread := None, None, None, None;
    }

    method RequestStop()
      modifies this
      ensures View() == SafeStop(old(View()))
    {
      stopEvent := true;
    }

    /** The accepting step of `scan_many` with `_reserve_batch_locked`: on any refusal
        both locks are as before. */
    method ReserveBatchLocked(device: ScannerDevice, b: BatchId) returns (got: bool)
      modifies this, device
      ensures (View(), device.View(), got) == ReserveBatch(old(View()), old(device.View()), b)
      ensures got <==> old(!closed && !closing && activeBatchId.None? && !previewActive && !batchLocked
                           && !device.closed && device.faultedReason.None? && !device.ioLocked)
      ensures got ==>
        && !stopEvent && batchLocked && device.ioLocked
        && activeBatchId == Some(b) && activeBatch == Some(b) && uncertainBatch.None?
      ensures !got ==> View() == old(View()) && device.View() == old(device.View())
    {
      if closed || closing || activeBatchId != None || previewActive { return false; }
      var io := device.AcquireIoLock();
      if !io { return false; }
      if batchLocked {
        device.ReleaseIoLock();
        return false;
      }
      batchLocked := true;
      stopEvent := false;
      activeBatch := Some(b);
      uncertainBatch := None;
      activeBatchId := Some(b);
      return true;
    }

    method RetainUncertainBatch(b: BatchId)
      modifies this
      ensures View() == RetainUncertain(old(View()), b)
      ensures uncertainBatch == if old(activeBatchId) == Some(b) then Some(b) else old(uncertainBatch)
    {
      if activeBatchId != Some(b) { return; }
      uncertainBatch := Some(b);
    }

    /** The second block of `_batch_finished`. */
    method FinishBatch(device: ScannerDevice)
      modifies this, device
      ensures (View(), device.View()) == BatchFinished(old(View()), old(device.View()))
      ensures !batchLocked && activeBatch.None? && uncertainBatch.None? && activeBatchId.None? && !device.ioLocked
    {
      activeBatch := None;
      uncertainBatch := None;
      activeBatchId := None;
      batchLocked := false;
      device.ReleaseIoLock();
    }

    /** `_batch_finished`; false when a held child of the batch did not exit. */
    method EndBatch(b: BatchId, device: ScannerDevice, w: RollProtocol.Answer) returns (confirmed: bool)
      modifies this, device
      ensures confirmed == !(old(activeBatchId) == Some(b) && w.pending && !w.exited)
      ensures (View(), device.View()) ==
              if old(activeBatchId) == Some(b) && confirmed then BatchFinished(old(View()), old(device.View()))
              else (old(View()), old(device.View()))
    {
      if activeBatchId != Some(b) { return true; }
      if w.pending && !w.exited { return false; }
      FinishBatch(device);
      return true;
    }

    method BeginHold(t: ThreadId) returns (got: bool)
      modifies this
      ensures (View(), got) == HoldEnter(old(View()), t)
      ensures got <==> old(!closed && !closing && activeBatchId.None? && !previewActive)
      ensures got ==> previewActive && previewThread == Some(t)
    {
      if closed || closing { return false; }
      if activeBatchId != None { return false; }
      if previewActive { return false; }
      previewActive := true;
      previewThread := Some(t);
      return true;
    }

    method EndHold()
      modifies this
      ensures View() == HoldLeave(old(View()))
    {
      previewActive := false;
      previewThread := None;
    }

    /** The frame of `preview`, `film_present` and `solve_exposure` around the work itself:
        it runs exactly on a quiet open roll whose device is usable and free, and it leaves
        the roll as quiet and the device's lock as it found them. */
    method Hold(t: ThreadId, device: ScannerDevice) returns (ran: bool)
      modifies this, device
      ensures ran <==> old(!closed && !closing && activeBatchId.None? && !previewActive
                           && !device.closed && device.faultedReason.None? && !device.ioLocked)
      ensures device.View() == old(device.View())
      ensures View() == if old(MutableReview(View())) then old(View()).(previewThread := None) else old(View())
    {
      var got := BeginHold(t);
      if !got { return false; }
      ran := device.AcquireIoLock();
      if ran {
        device.ReleaseIoLock();
      }
      EndHold();
    }

    /** The waiting tests of `close`: which wait goes on, or which batch to close. */
    method ScanClose(reachable: set<BatchId>) returns (d: RollCloseDecision)
      ensures d == RollCloseScan(View(), reachable)
      ensures d.RollCloseBatch? <==>
        !previewActive && (uncertainBatch.Some? || (activeBatch.Some? && activeBatch.value in reachable))
      ensures d.RollCloseBatch? ==> d.b == if uncertainBatch.Some? then uncertainBatch.value else activeBatch.value
      ensures d.RollCloseClear? ==> !previewActive && activeBatchId.None?
    {
      if previewActive { return RollCloseStopping; }
      var active := None;
      if uncertainBatch.Some? {
        active := uncertainBatch;
      } else if activeBatch.Some? && activeBatch.value in reachable {
        active := activeBatch;
      }
      if active.Some? { return RollCloseBatch(active.value); }
      if activeBatchId.Some? { return RollCloseStopping; }
      return RollCloseClear;
    }

    method BeginClose(reachable: set<BatchId>) returns (d: RollCloseDecision)
      modifies this
      ensures (View(), d) == RollCloseEnter(old(View()), reachable)
      ensures d.RollCloseWait? <==> old(closing && !closed)
      ensures d.RollCloseDone? <==> old(closed)
      ensures !d.RollCloseWait? && !d.RollCloseDone? ==> closing && stopEvent
    {
      if closing && !closed { return RollCloseWait; }
      if closed { return RollCloseDone; }
      closing := true;
      RequestStop();
      d := ScanClose(reachable);
    }

    method AbortClose()
      modifies this
      ensures View() == RollCloseAborted(old(View()))
    {
      closing := false;
    }

    method EndClose()
      modifies this
      ensures View() == RollCloseFinal(old(View()))
    {
      closed := true;
      closing := false;
    }

    /** `close`.  It frees the device's roll reservation exactly when it closes the roll, and
        then no lock of the roll is left; a refused close leaves every lock as it was. */
    method Close(b: BatchId, batch: OwnedRollBatchIterator, t: ThreadId, device: ScannerDevice,
                 reachable: set<BatchId>, w: RollProtocol.Answer)
      returns (r: CloseResult)
      requires Agree(batch.View(), View(), device.View(), b) && activeBatchId in {None, Some(b)}
      modifies this, batch, device
      ensures (batch.View(), View(), device.View(), r.Closed?)
           == RollCloseCall(old(batch.View()), old(View()), old(device.View()), reachable, b, t, w)
      ensures r.Closed? <==> closed
      ensures r.Closed? <==> old(RollCloses(batch.View(), View(), reachable, t, w))
      ensures device.rollLocked == (old(device.rollLocked) && (r.CloseRefused? || old(closed)))
      ensures r.Closed? && !old(closed) ==> Quiet(View()) && !batchLocked && (old(batchLocked) ==> batch.closed)
      ensures r.CloseRefused? ==> device.View() == old(device.View()) && batchLocked == old(batchLocked)
                                  && activeBatchId == old(activeBatchId) && previewActive == old(previewActive)
      ensures r.CloseRefused? && !old(closing) ==> !closing && stopEvent
      ensures !old(closed) && !old(closing) ==> stopEvent
      ensures Agree(batch.View(), View(), device.View(), b)
    {
      var d := BeginClose(reachable);
      match d {
        case RollCloseWait => return CloseRefused;
        case RollCloseDone => return Closed;
        case RollCloseStopping =>
          AbortClose();
          return CloseRefused;
        case RollCloseBatch(_) =>
          var answer := batch.Close(b, t, this, device, w);
          if answer.CloseRefused? {
            AbortClose();
            return CloseRefused;
          }
        case RollCloseClear =>
      }
      device.ReleaseRollReservation();
      EndClose();
      return Closed;
    }
  }
}
