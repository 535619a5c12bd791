/** One thread's whole calls.  `Carry` takes a thread through a call on a batch from where
    it stands to the call's end while no other thread moves, so that a wait nobody ends
    runs into its deadline.  `RollObjects` proves that the methods compute it; here it is
    shown to be a run of the protocol, and its effect on the locks is said outright. */
module RollCalls {
  import opened Wrappers
  import opened RollCore
  import opened RollProtocol
  import opened RollSafety
  import opened RollTheorems

  /** How far a thread inside a batch is from the end of its call. */
  function CallRank(pc: Pc): nat {
    match pc
    case InBatch(_, CloseCalled(_)) => 12
    case InBatch(_, CloseWaiting(_)) => 11
    case InBatch(_, CloseRunning(_)) => 10
    case InBatch(_, NextRunning) => 10
    case InBatch(_, Finish(_, Testing)) => 9
    case InBatch(_, Finish(_, Checking)) => 8
    case InBatch(_, Finish(_, Teardown)) => 7
    case InBatch(_, Finish(_, Unlocking)) => 6
    case InBatch(_, Finish(_, Marking)) => 6
    case InBatch(_, Finish(_, Releasing)) => 5
    case InBatch(_, Finish(_, Retaining)) => 5
    case InBatch(_, Finish(_, _)) => 4
    case InBatch(_, NextMarking) => 3
    case InBatch(_, CloseFailing(_)) => 3
    case InBatch(_, NextRetaining) => 2
    case InBatch(_, _) => 1
    case _ => 0
  }

  /** A thread inside a batch whose objects are in sight. */
  predicate Inside(l: Local) {
    l.pc.InBatch? && l.batch.Some? && l.roll.Some?
  }

  /** The thread's next step: the end of its deadline if it can do nothing else. */
  function CallStep(l: Local, t: ThreadId, w: Answer): Local
    requires Inside(l)
  {
    if l.pc.stage.CloseWaiting? && Occupied(l.batch.value) then ExpireStep(l)
    else BatchStep(l, t, l.pc.b, l.pc.stage, w)
  }

  lemma CallStepEnds(l: Local, t: ThreadId, w: Answer)
    requires Inside(l)
    ensures var l' := CallStep(l, t, w);
      CallRank(l'.pc) < CallRank(l.pc) && l'.batch.Some? && l'.roll.Some?
      && (l'.pc.InBatch? ==> l'.pc.b == l.pc.b) && l'.batch.value.roll == l.batch.value.roll
  {
  }

  function Carry(l: Local, t: ThreadId, w: Answer): Local
    decreases CallRank(l.pc)
  {
    if Inside(l) then
      CallStepEnds(l, t, w);
      Carry(CallStep(l, t, w), t, w)
    else l
  }

  // -- a call is a run ---------------------------------------------------------------------

  /** Two places with the same objects, whatever their histories. */
  predicate SameObjects(l: Local, m: Local) {
    l.pc == m.pc && l.batch == m.batch && l.roll == m.roll && l.device == m.device
  }

  lemma {:induction false} CarryForgetsHistory(l: Local, m: Local, t: ThreadId, w: Answer)
    requires SameObjects(l, m)
    ensures SameObjects(Carry(l, t, w), Carry(m, t, w))
    decreases CallRank(l.pc)
  {
    if Inside(l) {
      CallStepEnds(l, t, w);
      StepForgetsHistory(l, m, t, w);
      CarryForgetsHistory(CallStep(l, t, w), CallStep(m, t, w), t, w);
    }
  }

  lemma StepForgetsHistory(l: Local, m: Local, t: ThreadId, w: Answer)
    requires SameObjects(l, m) && Inside(l)
    ensures SameObjects(CallStep(l, t, w), CallStep(m, t, w))
  {
  }

  /** The action behind a thread's next step. */
  function CallAction(s: State, t: ThreadId, w: Answer): Action
    requires Placed(s, PcOf(s, t))
  {
    if Blocked(s, PcOf(s, t)) then Expire(t) else Resume(t, w)
  }

  lemma FocusWrite(s: State, x: Site, l: Local)
    requires x.b.Some? && x.r.Some?
    ensures Focus(Write(s, x, l), x) == l
  {
  }

  lemma CallActionSteps(s: State, t: ThreadId, w: Answer)
    requires Inv(s) && PcOf(s, t).InBatch?
    ensures Placed(s, PcOf(s, t)) && Enabled(s, CallAction(s, t, w))
    ensures var x := Own(s, t); var s' := Apply(s, CallAction(s, t, w));
      && Inside(Focus(s, x)) && Focus(s', x) == CallStep(Focus(s, x), t, w)
      && (PcOf(s', t).InBatch? ==> Own(s', t) == x)
  {
    assert ThreadOk(s, t);
    var x, a := Own(s, t), CallAction(s, t, w);
    var l := Focus(s, x);
    CallStepEnds(l, t, w);
    FocusWrite(s, x, CallStep(l, t, w));
  }

  lemma CallActionCarries(s: State, t: ThreadId, w: Answer, s': State)
    requires Inv(s) && PcOf(s, t).InBatch? && s' == Apply(s, CallAction(s, t, w))
    ensures CallRank(PcOf(s', t)) < CallRank(PcOf(s, t))
    ensures var x := Own(s, t);
      && Carry(Focus(s, x), t, w) == Carry(Focus(s', x), t, w)
      && (!PcOf(s', t).InBatch? ==> Carry(Focus(s', x), t, w) == Focus(s', x))
  {
    CallActionSteps(s, t, w);
    CallStepEnds(Focus(s, Own(s, t)), t, w);
  }

  lemma OneStep(s: State, a: Action) returns (states: seq<State>, actions: seq<Action>)
    requires Inv(s) && Enabled(s, a)
    ensures states == [s, Apply(s, a)] && actions == [a] && RunFrom(states, actions)
  {
    states, actions := [s, Apply(s, a)], [a];
  }

  /** Only the one thread acts, and it neither starts a call nor changes its answers. */
  ghost predicate Alone(actions: seq<Action>, t: ThreadId, w: Answer) {
    forall n | 0 <= n < |actions| :: actions[n] == Resume(t, w) || actions[n] == Expire(t)
  }

  /** From any state of any run, a thread inside a batch can be carried through its call
      by steps of its own alone, and the objects are then as `Carry` says. */
  lemma {:induction false} CallIsARun(s: State, t: ThreadId, w: Answer) returns (states: seq<State>, actions: seq<Action>)
    requires Inv(s) && PcOf(s, t).InBatch?
    ensures RunFrom(states, actions) && states[0] == s && Alone(actions, t, w)
    ensures Focus(states[|actions|], Own(s, t)) == Carry(Focus(s, Own(s, t)), t, w)
    ensures !PcOf(states[|actions|], t).InBatch?
    decreases CallRank(PcOf(s, t))
  {
    hide Inv, Apply, Focus, Own, PcOf, Enabled, Blocked, Placed, CallStep, Carry;
    CallActionSteps(s, t, w);
    var x, a := Own(s, t), CallAction(s, t, w);
    var s' := Apply(s, a);
    StepKeepsInv(s, a);
    CallActionCarries(s, t, w, s');
    if PcOf(s', t).InBatch? {
      var states', actions' := CallIsARun(s', t, w);
      states, actions := Prepend(s, a, states', actions', 0);
    } else {
      states, actions := OneStep(s, a);
    }
  }

  // -- what a call does to the locks ---------------------------------------------------------

  /** Nothing stands in the way of the release of both locks. */
  predicate Frees(x: Batch, roll: Roll, b: BatchId, w: Answer) {
    !x.released && roll.activeBatchId == Some(b) && (!w.pending || w.exited)
  }

  /** A held child of the batch did not exit. */
  predicate Keeps(x: Batch, roll: Roll, b: BatchId, w: Answer) {
    !x.released && roll.activeBatchId == Some(b) && w.pending && !w.exited
  }

  /** `_finish_definite_close`. */
  function Finished(x: Batch, roll: Roll, d: Device, b: BatchId, w: Answer): (Batch, Roll, Device) {
    if Keeps(x, roll, b, w) then
      (x.(uncertain := true, closing := None), RetainUncertain(roll, b), d)
    else
      var x' := x.(released := true, closed := true, closing := None);
      if Frees(x, roll, b, w) then (x', BatchFinished(roll, d).0, BatchFinished(roll, d).1) else (x', roll, d)
  }

  lemma CarrySteps(l: Local, t: ThreadId, w: Answer)
    requires Inside(l)
    ensures Carry(l, t, w) == Carry(CallStep(l, t, w), t, w)
  {
  }

  /** A thread at one stage of the finish. */
  function At(l: Local, b: BatchId, path: Path, at: FinishStage): Local {
    l.(pc := InBatch(b, Finish(path, at)))
  }

  lemma CarryUnlocks(l: Local, t: ThreadId, b: BatchId, path: Path, w: Answer)
    requires l.batch.Some? && l.roll.Some? && (!w.pending || w.exited) && l.roll.value.activeBatchId == Some(b)
    ensures var (roll, d) := BatchFinished(l.roll.value, l.device);
      Carry(At(l, b, path, Checking), t, w)
      == Carry(At(l.(roll := Some(roll), device := d, ioOwner := None, unlocks := l.unlocks + 1), b, path, Releasing), t, w)
  {
    CarrySteps(At(l, b, path, Checking), t, w);
    if w.pending { CarrySteps(At(l, b, path, Teardown), t, w); }
    CarrySteps(At(l, b, path, Unlocking), t, w);
  }

  lemma CarryCloses(l: Local, t: ThreadId, b: BatchId, path: Path, w: Answer)
    requires l.batch.Some? && l.roll.Some?
    ensures Carry(At(l, b, path, Releasing), t, w)
         == Carry(l.(batch := Some(FinishClosed(SetReleased(l.batch.value))), pc := AfterFinish(b, path, true)), t, w)
  {
    var l' := l.(batch := Some(SetReleased(l.batch.value)));
    CarrySteps(At(l, b, path, Releasing), t, w);
    CarrySteps(At(l', b, path, Closing), t, w);
  }

  lemma CarryKeeps(l: Local, t: ThreadId, b: BatchId, path: Path, w: Answer)
    requires l.batch.Some? && l.roll.Some? && Keeps(l.batch.value, l.roll.value, b, w)
    ensures var (x, roll, d) := Finished(l.batch.value, l.roll.value, l.device, b, w);
      Carry(At(l, b, path, Checking), t, w)
      == Carry(l.(batch := Some(x), roll := Some(roll), pc := AfterFinish(b, path, false)), t, w)
  {
    var l1 := l.(batch := Some(MarkUncertain(l.batch.value)));
    var l2 := l1.(roll := Some(RetainUncertain(l.roll.value, b)));
    CarrySteps(At(l, b, path, Checking), t, w);
    CarrySteps(At(l, b, path, Teardown), t, w);
    CarrySteps(At(l, b, path, Marking), t, w);
    CarrySteps(At(l1, b, path, Retaining), t, w);
    CarrySteps(At(l2, b, path, Aborting), t, w);
  }

  /** The nine stages of a definite close do what `Finished` says. */
  lemma CarryFinishes(l: Local, t: ThreadId, b: BatchId, path: Path, w: Answer)
    requires l.batch.Some? && l.roll.Some?
    ensures var (x, roll, d) := Finished(l.batch.value, l.roll.value, l.device, b, w);
      SameObjects(Carry(At(l, b, path, Testing), t, w),
                  Carry(l.(batch := Some(x), roll := Some(roll), device := d,
                           pc := AfterFinish(b, path, !Keeps(l.batch.value, l.roll.value, b, w))), t, w))
  {
    CarrySteps(At(l, b, path, Testing), t, w);
    if l.batch.value.released {
      CarrySteps(At(l, b, path, Closing), t, w);
    } else if Keeps(l.batch.value, l.roll.value, b, w) {
      CarryKeeps(l, t, b, path, w);
    } else if Frees(l.batch.value, l.roll.value, b, w) {
      CarryUnlocks(l, t, b, path, w);
      CarryFreed(l, t, b, path, w);
    } else {
      CarrySteps(At(l, b, path, Checking), t, w);
      CarryCloses(l, t, b, path, w);
    }
  }

  lemma CarryFreed(l: Local, t: ThreadId, b: BatchId, path: Path, w: Answer)
    requires l.batch.Some? && l.roll.Some? && Frees(l.batch.value, l.roll.value, b, w)
    ensures var (x, roll, d) := Finished(l.batch.value, l.roll.value, l.device, b, w);
      SameObjects(
        Carry(At(l.(roll := Some(roll), device := d, ioOwner := None, unlocks := l.unlocks + 1), b, path, Releasing), t, w),
        Carry(l.(batch := Some(x), roll := Some(roll), device := d, pc := AfterFinish(b, path, true)), t, w))
  {
    var (x, roll, d) := Finished(l.batch.value, l.roll.value, l.device, b, w);
    var l' := l.(roll := Some(roll), device := d, ioOwner := None, unlocks := l.unlocks + 1);
    CarryCloses(l', t, b, path, w);
    CarryForgetsHistory(l'.(batch := Some(x), pc := AfterFinish(b, path, true)),
                        l.(batch := Some(x), roll := Some(roll), device := d, pc := AfterFinish(b, path, true)), t, w);
  }

  /** What `next` leaves behind once the generator's `next` came back. */
  function NextCall(x: Batch, roll: Roll, d: Device, b: BatchId, w: Answer): (Batch, Roll, Device) {
    match w.outcome
    case Yielded => (NextLeave(x), roll, d)
    case WorkerStillActive => (NextLeave(MarkUncertain(x)), RetainUncertain(roll, b), d)
    case Ended => var (x', roll', d') := Finished(x, roll, d, b, w); (NextLeave(x'), roll', d')
  }

  lemma CarryNext(l: Local, t: ThreadId, b: BatchId, w: Answer)
    requires l.batch.Some? && l.roll.Some? && l.pc == InBatch(b, NextRunning)
    ensures var (x, roll, d) := NextCall(l.batch.value, l.roll.value, l.device, b, w);
      SameObjects(Carry(l, t, w), l.(batch := Some(x), roll := Some(roll), device := d, pc := Idle))
  {
    CarrySteps(l, t, w);
    match w.outcome
    case Yielded => CarrySteps(l.(pc := InBatch(b, NextLeaving)), t, w);
    case WorkerStillActive =>
      var l1 := l.(batch := Some(MarkUncertain(l.batch.value)));
      var l2 := l1.(roll := Some(RetainUncertain(l.roll.value, b)));
      CarrySteps(l.(pc := InBatch(b, NextMarking)), t, w);
      CarrySteps(l1.(pc := InBatch(b, NextRetaining)), t, w);
      CarrySteps(l2.(pc := InBatch(b, NextLeaving)), t, w);
    case Ended =>
      CarryFinishes(l, t, b, FromNext, w);
      var (x, roll, d) := Finished(l.batch.value, l.roll.value, l.device, b, w);
      CarrySteps(l.(batch := Some(x), roll := Some(roll), device := d, pc := InBatch(b, NextLeaving)), t, w);
  }

  /** The shutdown a closer has claimed, and whether it was definite. */
  function ShutDown(x: Batch, roll: Roll, d: Device, b: BatchId, w: Answer): (Batch, Roll, Device, bool) {
    if w.outcome.WorkerStillActive? then (CloseFailed(x), RetainUncertain(roll, b), d, false)
    else var (x', roll', d') := Finished(x, roll, d, b, w); (x', roll', d', !Keeps(x, roll, b, w))
  }

  lemma CarryShutDown(l: Local, t: ThreadId, b: BatchId, k: Caller, w: Answer)
    requires l.batch.Some? && l.roll.Some? && l.pc == InBatch(b, CloseRunning(k))
    ensures var (x, roll, d, definite) := ShutDown(l.batch.value, l.roll.value, l.device, b, w);
      SameObjects(Carry(l, t, w), l.(batch := Some(x), roll := Some(roll), device := d,
                                     pc := if definite then Returned(k) else Refused(k)))
  {
    CarrySteps(l, t, w);
    if w.outcome.WorkerStillActive? {
      CarrySteps(l.(pc := InBatch(b, CloseFailing(k))), t, w);
      CarrySteps(l.(batch := Some(CloseFailed(l.batch.value)), pc := InBatch(b, CloseRetaining(k))), t, w);
    } else {
      CarryFinishes(l, t, b, FromClose(k), w);
    }
  }

  /** What `close` does from its first test on, and whether it returned without an error. */
  function CloseCall(x: Batch, roll: Roll, d: Device, b: BatchId, t: ThreadId, w: Answer): (Batch, Roll, Device, bool) {
    var (x', decision) := CloseEnter(x, t);
    var roll' := if CloseRequestsStop(x, t) then SafeStop(roll) else roll;
    match decision
    case CloseUncertain => (x', roll', d, false)
    case CloseFromInside => (x', roll', d, false)
    case CloseDone => (x', roll', d, true)
    case CloseWait => (MarkUncertain(x'), RetainUncertain(roll', b), d, false)
    case CloseClaimed => ShutDown(x', roll', d, b, w)
  }

  lemma CarryClose(l: Local, t: ThreadId, b: BatchId, k: Caller, w: Answer)
    requires l.batch.Some? && l.roll.Some? && l.pc == InBatch(b, CloseCalled(k))
    ensures var (x, roll, d, returned) := CloseCall(l.batch.value, l.roll.value, l.device, b, t, w);
      SameObjects(Carry(l, t, w), l.(batch := Some(x), roll := Some(roll), device := d,
                                     pc := if returned then Returned(k) else Refused(k)))
  {
    CarrySteps(l, t, w);
    var l' := CallStep(l, t, w);
    match CloseEnter(l.batch.value, t).1
    case CloseClaimed => CarryShutDown(l', t, b, k, w);
    case CloseWait =>
      CarrySteps(l', t, w);
      CarrySteps(l'.(batch := Some(MarkUncertain(l'.batch.value)), pc := InBatch(b, CloseTimedOut(k))), t, w);
    case _ =>
  }

  // -- the objects agree about their locks ---------------------------------------------------

  /** A batch, its roll and the device agree on who holds the two locks of the batch. */
  predicate Agree(x: Batch, roll: Roll, d: Device, b: BatchId) {
    && (x.closed ==> x.released)
    && (x.released ==> roll.activeBatchId != Some(b))
    && (roll.activeBatchId.Some? <==> roll.batchLocked)
    && (roll.batchLocked ==> d.ioLocked)
    && roll.activeBatch == roll.activeBatchId
    && (roll.uncertainBatch.Some? ==> roll.uncertainBatch == roll.activeBatchId)
  }

  // -- what whole calls promise ------------------------------------------------------------

  predicate BothFreed(roll: Roll, d: Device, roll': Roll, d': Device) {
    !roll'.batchLocked && roll'.activeBatchId.None? && d' == ReleaseIo(d)
  }

  predicate BothKept(roll: Roll, d: Device, roll': Roll, d': Device) {
    roll'.batchLocked == roll.batchLocked && roll'.activeBatchId == roll.activeBatchId && d' == d
  }

  predicate RestKept(roll: Roll, roll': Roll) {
    && roll'.closing == roll.closing && roll'.closed == roll.closed
    && roll'.previewActive == roll.previewActive && roll'.previewThread == roll.previewThread
  }

  /** `next` frees both locks exactly when it ran, the generator ended and no held child
      stands in the way; on every other way out it leaves them alone. */
  predicate NextMeans(x: Batch, roll: Roll, d: Device, x': Batch, roll': Roll, d': Device, b: BatchId, t: ThreadId, w: Answer) {
    var ran := !x.closed && x.executing.None? && x.closing.None?;
    var ended := ran && w.outcome.Ended?;
    var unsure := (ran && w.outcome.WorkerStillActive?) || (ended && Keeps(x, roll, b, w));
    && (if ended && Frees(x, roll, b, w) then BothFreed(roll, d, roll', d') else BothKept(roll, d, roll', d'))
    && RestKept(roll, roll') && roll'.stop == roll.stop
    && (x'.closed <==> x.closed || (ended && !unsure))
    && (x'.uncertain <==> x.uncertain || unsure)
    && x'.executing == (if ran then None else x.executing)
  }

  /** `close` frees them exactly when it claimed the shutdown, the worker has ended and no
      held child stands in the way; it returns exactly when the batch is closed. */
  predicate CloseMeans(x: Batch, roll: Roll, d: Device, x': Batch, roll': Roll, d': Device, returned: bool,
                       b: BatchId, t: ThreadId, w: Answer) {
    var inside := x.executing == Some(t) || x.closing == Some(t);
    var claims := !x.uncertain && !x.closed && x.executing.None? && x.closing.None?;
    var ended := claims && !w.outcome.WorkerStillActive?;
    && (if ended && Frees(x, roll, b, w) then BothFreed(roll, d, roll', d') else BothKept(roll, d, roll', d'))
    && RestKept(roll, roll') && (roll'.stop <==> roll.stop || (!x.uncertain && !x.closed && !inside))
    && (returned <==> (x.closed && !x.uncertain) || (ended && !Keeps(x, roll, b, w)))
    && (returned ==> x'.closed)
    && (!returned ==> x'.uncertain || inside)
  }

  /** `Roll.close` ends with the roll closed: it was, or nobody else is closing it, no
      preview runs, and its batch, if any, is reachable and shuts down definitely. */
  predicate RollCloses(x: Batch, roll: Roll, reachable: set<BatchId>, t: ThreadId, w: Answer) {
    roll.closed
    || (!roll.closing && !roll.previewActive
        && (roll.activeBatchId.None?
            || ((roll.uncertainBatch.Some? || (roll.activeBatch.Some? && roll.activeBatch.value in reachable))
                && !x.uncertain && !x.closed && x.executing.None? && x.closing.None?
                && !w.outcome.WorkerStillActive? && (!w.pending || w.exited))))
  }

  lemma FinishedMeans(x: Batch, roll: Roll, d: Device, b: BatchId, w: Answer)
    ensures var (x', roll', d') := Finished(x, roll, d, b, w);
      && (if Frees(x, roll, b, w) then BothFreed(roll, d, roll', d') else BothKept(roll, d, roll', d'))
      && RestKept(roll, roll') && roll'.stop == roll.stop
      && (x'.closed <==> x.closed || !Keeps(x, roll, b, w))
      && (x'.uncertain <==> x.uncertain || Keeps(x, roll, b, w))
      && x'.executing == x.executing
  {
  }

  lemma FinishedAgrees(x: Batch, roll: Roll, d: Device, b: BatchId, w: Answer)
    requires Agree(x, roll, d, b)
    ensures var (x', roll', d') := Finished(x, roll, d, b, w); Agree(x', roll', d', b)
  {
  }

  lemma NextCallMeans(x: Batch, roll: Roll, d: Device, b: BatchId, t: ThreadId, w: Answer)
    requires NextEnter(x, t).1.NextGo?
    ensures var (x', roll', d') := NextCall(NextEnter(x, t).0, roll, d, b, w);
      NextMeans(x, roll, d, x', roll', d', b, t, w)
  {
    hide Finished;
    if w.outcome.Ended? { FinishedMeans(NextEnter(x, t).0, roll, d, b, w); }
  }

  lemma NextCallAgrees(x: Batch, roll: Roll, d: Device, b: BatchId, t: ThreadId, w: Answer)
    requires NextEnter(x, t).1.NextGo? && Agree(x, roll, d, b)
    ensures var (x', roll', d') := NextCall(NextEnter(x, t).0, roll, d, b, w); Agree(x', roll', d', b)
  {
    hide Finished;
    if w.outcome.Ended? { FinishedAgrees(NextEnter(x, t).0, roll, d, b, w); }
  }

  lemma CloseCallMeans(x: Batch, roll: Roll, d: Device, b: BatchId, t: ThreadId, w: Answer)
    ensures var (x', roll', d', returned) := CloseCall(x, roll, d, b, t, w);
      CloseMeans(x, roll, d, x', roll', d', returned, b, t, w)
  {
    hide Finished;
    if CloseEnter(x, t).1.CloseClaimed? { FinishedMeans(CloseEnter(x, t).0, SafeStop(roll), d, b, w); }
  }

  lemma CloseCallAgrees(x: Batch, roll: Roll, d: Device, b: BatchId, t: ThreadId, w: Answer)
    requires Agree(x, roll, d, b)
    ensures var (x', roll', d', _) := CloseCall(x, roll, d, b, t, w); Agree(x', roll', d', b)
  {
    hide Finished;
    if CloseEnter(x, t).1.CloseClaimed? { FinishedAgrees(CloseEnter(x, t).0, SafeStop(roll), d, b, w); }
  }

  /** They do in every state of every run. */
  lemma RunsAgree(s: State, b: BatchId)
    requires Inv(s) && b in s.batches
    ensures var x := s.batches[b]; x.roll in s.rolls && Agree(x, s.rolls[x.roll], s.device, b)
  {
    assert BatchOk(s, b);
    var r := s.batches[b].roll;
    assert RollOk(s, r);
    var active := s.rolls[r].activeBatchId;
    if active.Some? { assert BatchOk(s, active.value); }
  }

  // -- Roll.close as a run ---------------------------------------------------------------------

  /** What `Roll.close` does to its batch, itself and the device, and whether it returned
      without an error. */
  function RollCloseCall(x: Batch, roll: Roll, d: Device, reachable: set<BatchId>, b: BatchId, t: ThreadId, w: Answer)
    : (Batch, Roll, Device, bool)
  {
    var (roll', decision) := RollCloseEnter(roll, reachable);
    match decision
    case RollCloseWait => (x, roll', d, false)
    case RollCloseDone => (x, roll', d, true)
    case RollCloseStopping => (x, RollCloseAborted(roll'), d, false)
    case RollCloseClear => (x, RollCloseFinal(roll'), ReleaseRollLock(d), true)
    case RollCloseBatch(_) =>
      var (x', closing, d', returned) := CloseCall(x, roll', d, b, t, w);
      if returned then (x', RollCloseFinal(closing), ReleaseRollLock(d'), true)
      else (x', RollCloseAborted(closing), d', false)
  }

  /** A batch as the roll's closer sees it. */
  function BatchOf(s: State, b: BatchId): Batch {
    if b in s.batches then s.batches[b] else NewBatch(0)
  }

  predicate Shows(s: State, r: RollId, b: BatchId, x: Batch, roll: Roll, d: Device) {
    BatchOf(s, b) == x && r in s.rolls && s.rolls[r] == roll && s.device == d
  }

  lemma Then(states: seq<State>, actions: seq<Action>, more: seq<State>, steps: seq<Action>, t: ThreadId, w: Answer)
    returns (states': seq<State>, actions': seq<Action>)
    requires RunFrom(states, actions) && Alone(actions, t, w)
    requires RunFrom(more, steps) && Alone(steps, t, w) && more[0] == states[|actions|]
    ensures RunFrom(states', actions') && Alone(actions', t, w)
    ensures states'[0] == states[0] && states'[|actions'|] == more[|steps|]
  {
    states', actions' := states + more[1..], actions + steps;
    forall i | 0 <= i < |actions'|
      ensures Enabled(states'[i], actions'[i]) && states'[i + 1] == Apply(states'[i], actions'[i])
      ensures actions'[i] == Resume(t, w) || actions'[i] == Expire(t)
    {
      if i >= |actions| {
        var j := i - |actions|;
        assert actions'[i] == steps[j] && states'[i] == more[j] && states'[i + 1] == more[j + 1];
      }
    }
  }

  /** One step of a closer that is not inside a batch. */
  lemma RollStepSteps(s: State, t: ThreadId, r: RollId, b: BatchId, w: Answer)
    requires Inv(s) && PcOf(s, t).InRoll? && PcOf(s, t).r == r
    requires PcOf(s, t).at in {ReleasingHeld, FreeingRoll, Ending, Abandoning}
    ensures Enabled(s, Resume(t, w)) && r in s.rolls
    ensures var s' := Apply(s, Resume(t, w));
         match PcOf(s, t).at
         case ReleasingHeld =>
           PcOf(s', t) == InRoll(r, FreeingRoll) && Shows(s', r, b, BatchOf(s, b), s.rolls[r], s.device)
         case FreeingRoll =>
           PcOf(s', t) == InRoll(r, Ending) && Shows(s', r, b, BatchOf(s, b), s.rolls[r], ReleaseRollLock(s.device))
         case Ending =>
           PcOf(s', t).Idle? && Shows(s', r, b, BatchOf(s, b), RollCloseFinal(s.rolls[r]), s.device)
         case _ =>
           PcOf(s', t).Idle? && Shows(s', r, b, BatchOf(s, b), RollCloseAborted(s.rolls[r]), s.device)
  {
    assert ThreadOk(s, t);
  }

  /** From its last part on, `Roll.close` frees the reservation and closes the roll. */
  lemma {:induction false} CloseTail(s: State, t: ThreadId, r: RollId, b: BatchId, w: Answer)
    returns (states: seq<State>, actions: seq<Action>)
    requires Inv(s) && r in s.rolls && PcOf(s, t).InRoll? && PcOf(s, t).r == r
    requires PcOf(s, t).at in {ReleasingHeld, FreeingRoll, Ending, Abandoning}
    ensures RunFrom(states, actions) && Alone(actions, t, w) && states[0] == s
    ensures PcOf(states[|actions|], t).Idle?
    ensures var roll, d := s.rolls[r], s.device; var at := PcOf(s, t).at;
      Shows(states[|actions|], r, b, BatchOf(s, b),
            if at.Abandoning? then RollCloseAborted(roll) else RollCloseFinal(roll),
            if at.Abandoning? || at.Ending? then d else ReleaseRollLock(d))
    decreases match PcOf(s, t).at case ReleasingHeld => 2 case FreeingRoll => 1 case _ => 0
  {
    hide Inv, Apply, Enabled;
    RollStepSteps(s, t, r, b, w);
    StepKeepsInv(s, Resume(t, w));
    states, actions := OneStep(s, Resume(t, w));
    var at, s' := PcOf(s, t).at, states[1];
    if at.ReleasingHeld? || at.FreeingRoll? {
      var more, steps := CloseTail(s', t, r, b, w);
      states, actions := Then(states, actions, more, steps, t, w);
    }
  }

  /** The batch a closer finds is the roll's active one. */
  lemma ClosesItsOwnBatch(s: State, r: RollId, b: BatchId)
    requires Inv(s) && r in s.rolls && ActiveOf(s, r) in {None, Some(b)}
    ensures var d := RollCloseEnter(s.rolls[r], Reachable(s)).1;
      d.RollCloseBatch? ==> d.b == b && ActiveOf(s, r) == Some(b) && b in s.batches && s.batches[b].roll == r
  {
    assert RollOk(s, r);
    if s.rolls[r].activeBatchId == Some(b) { assert BatchOk(s, b); }
  }

  /** The opening block of `Roll.close`, called by an idle thread. */
  lemma RollCloseOpens(s: State, t: ThreadId, r: RollId, b: BatchId)
    requires Enabled(s, CallRollClose(t, r))
    ensures var s' := Apply(s, CallRollClose(t, r)); var (roll, d) := RollCloseEnter(s.rolls[r], Reachable(s));
      && Shows(s', r, b, BatchOf(s, b), roll, s.device)
      && PcOf(s', t) == AfterScan(r, d) && s'.abandoned == s.abandoned
  {
    hide RollCloseEnter, AfterScan;
  }

  lemma RollCloseFindsBatches(s: State, t: ThreadId, r: RollId, b: BatchId)
    requires Enabled(s, CallRollClose(t, r))
    ensures Apply(s, CallRollClose(t, r)).batches == s.batches
  {
    hide RollCloseEnter, AfterScan;
  }

  /** A queued closer's deadline passes. */
  lemma QueuedGivesUp(s: State, t: ThreadId, r: RollId, b: BatchId)
    requires Inv(s) && PcOf(s, t) == InRoll(r, Queued)
    requires r in s.rolls && s.rolls[r].closing && !s.rolls[r].closed
    ensures Enabled(s, Expire(t))
    ensures var s' := Apply(s, Expire(t));
      PcOf(s', t).Idle? && Shows(s', r, b, BatchOf(s, b), s.rolls[r], s.device)
  {
    assert ThreadOk(s, t);
  }

  /** The deadline of a closer that waits for a preview or for an unreachable batch. */
  lemma StoppingGivesUp(s: State, t: ThreadId, r: RollId, b: BatchId)
    requires Inv(s) && PcOf(s, t) == InRoll(r, Stopping)
    requires r in s.rolls && RollCloseScan(s.rolls[r], Reachable(s)).RollCloseStopping?
    ensures Enabled(s, Expire(t))
    ensures var s' := Apply(s, Expire(t));
      PcOf(s', t).Idle? && Shows(s', r, b, BatchOf(s, b), RollCloseAborted(s.rolls[r]), s.device)
  {
    assert ThreadOk(s, t);
  }

  lemma InsideCloses(s: State, t: ThreadId, r: RollId, b: BatchId, w: Answer) returns (states: seq<State>, actions: seq<Action>)
    requires Inv(s) && PcOf(s, t) == InBatch(b, CloseCalled(ToRollClose(r)))
    requires r in s.rolls && b in s.batches && s.batches[b].roll == r
    ensures RunFrom(states, actions) && Alone(actions, t, w) && states[0] == s
    ensures var (x, roll, d, returned) := CloseCall(s.batches[b], s.rolls[r], s.device, b, t, w);
      && Shows(states[|actions|], r, b, x, roll, d)
      && PcOf(states[|actions|], t) == InRoll(r, if returned then ReleasingHeld else Abandoning)
  {
    states, actions := CallIsARun(s, t, w);
    CarryClose(Focus(s, Own(s, t)), t, b, ToRollClose(r), w);
  }

  lemma CallFindsRoll(s: State, t: ThreadId, r: RollId)
    requires Enabled(s, CallRollClose(t, r))
    ensures r in s.rolls
  {
  }

  /** From any state of any run, an idle thread that calls `Roll.close` comes to its end by
      its own steps, and the objects are then as the whole call computes. */
  lemma RollCloseIsARun(s: State, t: ThreadId, r: RollId, b: BatchId, w: Answer)
    returns (states: seq<State>, actions: seq<Action>)
    requires Inv(s) && Enabled(s, CallRollClose(t, r)) && ActiveOf(s, r) in {None, Some(b)}
    ensures RunFrom(states, actions) && Alone(actions, t, w) && states[0] == Apply(s, CallRollClose(t, r))
    ensures PcOf(states[|actions|], t).Idle?
    ensures var (x, roll, d, _) := RollCloseCall(BatchOf(s, b), s.rolls[r], s.device, Reachable(s), b, t, w);
      Shows(states[|actions|], r, b, x, roll, d)
  {
    hide Inv, Apply, Enabled, CloseCall;
    CallFindsRoll(s, t, r);
    var s1 := Apply(s, CallRollClose(t, r));
    RollCloseOpens(s, t, r, b);
    RollCloseFindsBatches(s, t, r, b);
    ClosesItsOwnBatch(s, r, b);
    StepKeepsInv(s, CallRollClose(t, r));
    match RollCloseEnter(s.rolls[r], Reachable(s)).1
    case RollCloseDone =>
      states, actions := [s1], [];
    case RollCloseClear =>
      states, actions := CloseTail(s1, t, r, b, w);
    case RollCloseBatch(_) =>
      var before, calls := InsideCloses(s1, t, r, b, w);
      RunInv(before, calls, |calls|);
      var more, steps := CloseTail(before[|calls|], t, r, b, w);
      states, actions := Then(before, calls, more, steps, t, w);
    case RollCloseWait =>
      QueuedGivesUp(s1, t, r, b);
      states, actions := OneStep(s1, Expire(t));
    case RollCloseStopping =>
      StoppingGivesUp(s1, t, r, b);
      states, actions := OneStep(s1, Expire(t));
  }
}
